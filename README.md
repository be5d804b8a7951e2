# Typed configuration layer of GUI-Framework, in Dafny

This project models the configuration core of the GUI-Framework desktop
scaffolding library and proves properties of it:

- `WritableConfig`: a mutable store from typed tags to values. It has a language
  and a static registry of known tags (`DEFAULT_VALUES`). Every write is checked at
  run time against the tag's value class.
- `AbstractTag`: an immutable key made of a name and a value class, with `equals`
  and `hashCode`. Its concrete subclasses `IntegerTag`, `ShortTag` and `LongTag`
  write values as decimal text and read them back with `parseInt`, `parseShort`
  and `parseLong`. These throw `NumberFormatException` on text they cannot parse,
  and `deserializeValue` catches it and returns `null`.
- `ApplicationRegistry`: the registered application, the ordered list of
  languages and the default language.
- `Language`: a name, code and locale, plus the static table of languages keyed
  by code.
- `DefaultGlobalConfig` and `ConfigKey`: the older version of the config and its
  key type. Keys compare by identity, and the write check compares the key
  object's own class with the value's class.

How Java is represented:

- Java static fields are one object per class, passed to the operations that read
  them: `WritableConfig.DefaultValues`, `DefaultGlobalConfig.DefaultValues`,
  `ApplicationRegistry.ApplicationRegistry` and `Language.LanguageRegistry`.
- Java `null` is `None` of `JavaLang.Option`, or `null` of a nullable class type
  (`Language?`, `ConfigKey?`).
- A method that may throw returns `JavaLang.Result`: `Ok(value)`, or `Err` with
  the exception.
- A tag is a datatype. Dafny's equality on it is exactly `AbstractTag.equals`, so a
  `map<Tag, _>` is a `HashMap` keyed by tags.
- A `ConfigKey` is a class. Its identity is the key.
- A stored object is a `JavaLang.Value`. It is either a boxed `Boolean`, `Short`,
  `Integer` or `Long`, a reference to one of the two static registry maps, or
  some other instance of a class. `Value.Class()` is `getClass()`.
- A `HashMap`'s iteration order is unspecified. `Language.init` takes it as the
  parameter `order`. `getKeyFromName` and `fromCode` choose among the entries
  without a fixed order.

Behaviour kept as the code has it, where the doc comments suggest otherwise:

- `registerKey` stores the registry map itself under the key and ignores
  `defaultValue`. So every registered tag of a new config holds that map, except
  `CHECK_UPDATES`, which the `WritableConfig` constructor then sets to `true`
  (`WritableConfig.NewConfigEntries`).
- `getKeyFromName` ignores its `name` argument.
- `DefaultGlobalConfig.setValue` compares the class of the key object with the
  class of the value. A boxed value is therefore never accepted
  (`DefaultGlobalConfig.BoxedValuesRejected`). The constructor writes a `Boolean`,
  so `new DefaultGlobalConfig()` always throws (`DefaultGlobalConfig.DefaultGlobalConfig.New`).
  This differs from the `setValue` doc comment (`DefaultGlobalConfig.java:119`),
  which promises a `ClassCastException` only for a value not of the key's type
  `T`. The model follows the code.
- `setLanguages` with an empty list throws after replacing the stored list, and
  leaves the default language as it was.

## Model

| member | source | states |
|---|---|---|
| `JavaNumbers.DecimalText` | src/main/java/net/darmo_creations/gui_framework/config/tags/IntegerTag.java:33 | The decimal text of `v` is canonical (no `+`, no leading zeros, no `-0`), denotes `v`, and starts with `-` exactly when `v` is negative |
| `JavaNumbers.CanonicalDecimalUnique` | src/main/java/net/darmo_creations/gui_framework/config/tags/IntegerTag.java:32-34 | Canonical decimal text is exactly the text written for its value, so the serialiser's output is determined by that shape |
| `JavaNumbers.AccumulateDigitsCorrect` | src/main/java/net/darmo_creations/gui_framework/config/tags/IntegerTag.java:39 | The digit loop, which fails as soon as the magnitude passes the bound, agrees with checking the exact value of all the digits |
| `JavaNumbers.ParseDecimal` | src/main/java/net/darmo_creations/gui_framework/config/tags/IntegerTag.java:37-43 | Parsing succeeds exactly on an optional sign followed by one or more digits whose value lies in `[min, max]`, and then gives that value |
| `JavaNumbers.ParseInt` | src/main/java/net/darmo_creations/gui_framework/config/tags/IntegerTag.java:39 | `Integer.parseInt` gives a value exactly for an optional sign and digits denoting a number in `[-2^31, 2^31-1]`, and that value |
| `JavaNumbers.ParseLong` | src/main/java/net/darmo_creations/gui_framework/config/tags/LongTag.java:39 | `Long.parseLong` gives a value exactly for an optional sign and digits denoting a number in `[-2^63, 2^63-1]`, and that value |
| `JavaNumbers.ParseShort` | src/main/java/net/darmo_creations/gui_framework/config/tags/ShortTag.java:39 | `parseShort` (a `parseInt` followed by a 16-bit range check) succeeds exactly on well-formed text whose value is in 16-bit range |
| `AbstractTag.NewTag` | src/main/java/net/darmo_creations/gui_framework/config/tags/AbstractTag.java:39-56 | The constructor throws `NullPointerException` when the name or the value class is null; otherwise `getName` and `getValueClass` return the arguments |
| `AbstractTag.Tag.HashCode` | src/main/java/net/darmo_creations/gui_framework/config/tags/AbstractTag.java:59-67 | The step-by-step `int` computation equals `31 * (31 + hash(name)) + hash(class)` wrapped to 32 bits |
| `AbstractTag.Tag.Equals` | src/main/java/net/darmo_creations/gui_framework/config/tags/AbstractTag.java:70-76 | `equals(o)` holds exactly when `o` is a tag with the same name and value class, and is false for null and for non-tags |
| `JavaLang.StringHashCode` | src/main/java/net/darmo_creations/gui_framework/config/tags/AbstractTag.java:63 | `String.hashCode()`, computed in `int` arithmetic, always fits in 32 bits |
| `JavaLang.StringHashCodeIsPolynomial` | src/main/java/net/darmo_creations/gui_framework/config/tags/AbstractTag.java:63 | The `31 * h + c` loop of `String.hashCode()` gives the documented sum of `s[i] * 31^(n-1-i)`, wrapped to 32 bits |
| `AbstractTag.EqualsIsValueEquality` | src/main/java/net/darmo_creations/gui_framework/config/tags/AbstractTag.java:70-76 | Two tags are `equals` if and only if they have equal names and the same value class |
| `AbstractTag.EqualsNonTag` | src/main/java/net/darmo_creations/gui_framework/config/tags/AbstractTag.java:70-76 | `equals` is false for null and for any object that is not a tag |
| `AbstractTag.EqualsReflexiveSymmetric` | src/main/java/net/darmo_creations/gui_framework/config/tags/AbstractTag.java:70-76 | `equals` is reflexive and symmetric |
| `AbstractTag.EqualTagsEqualHashes` | src/main/java/net/darmo_creations/gui_framework/config/tags/AbstractTag.java:59-76 | Equal tags have equal hash codes |
| `AbstractTagTest.TagEqualities` | src/test/java/net/darmo_creations/gui_framework/config/tags/AbstractTagTest.java:20-32 | `BooleanTag("b1")` equals a second `BooleanTag("b1")`, differs from `BooleanTag("b2")`, and differs from `IntegerTag("b1")` |
| `AbstractTagTest.HashcodeNotEqualsDifferentNames` | src/test/java/net/darmo_creations/gui_framework/config/tags/AbstractTagTest.java:40-42 | The hashes of `BooleanTag("b1")` and `BooleanTag("b2")` differ, whatever hash the JVM gives the class |
| `AbstractTagTest.HashcodeDifferentTypes` | src/test/java/net/darmo_creations/gui_framework/config/tags/AbstractTagTest.java:45-47 | The hashes of `IntegerTag("b1")` and `BooleanTag("b1")` differ exactly when the identity hashes of `Integer.class` and `Boolean.class` differ |
| `IntegerTag.New` | src/main/java/net/darmo_creations/gui_framework/config/tags/IntegerTag.java:27-29 | `new IntegerTag(name)` is the tag `(name, Integer.class)`, and a null name throws |
| `IntegerTag.SerializeValueGeneric` | src/main/java/net/darmo_creations/gui_framework/config/tags/IntegerTag.java:32-34 | Null is written as `"null"`; a value is written as canonical decimal text denoting it, with a `-` exactly for negatives |
| `IntegerTag.DeserializeValue` | src/main/java/net/darmo_creations/gui_framework/config/tags/IntegerTag.java:37-44 | Reading gives a number exactly for an optional sign and digits denoting a 32-bit value, and null for malformed or out-of-range text and for a null text |
| `IntegerTag.SerializeValue` | src/main/java/net/darmo_creations/gui_framework/config/tags/AbstractTag.java:86-88 | `serializeValue` throws `ClassCastException` exactly for a non-null value that is not an `Integer`; otherwise it writes the value's text, or `"null"` |
| `IntegerTag.RoundTrip` | src/main/java/net/darmo_creations/gui_framework/config/tags/IntegerTag.java:32-44 | Reading back what was written gives every 32-bit value, and null, back |
| `IntegerTag.CanonicalTextRoundTrip` | src/main/java/net/darmo_creations/gui_framework/config/tags/IntegerTag.java:32-44 | Canonical text that reads as a value is written back unchanged |
| `ShortTag.New` | src/main/java/net/darmo_creations/gui_framework/config/tags/ShortTag.java:27-29 | `new ShortTag(name)` is the tag `(name, Short.class)`, and a null name throws |
| `ShortTag.SerializeValueGeneric` | src/main/java/net/darmo_creations/gui_framework/config/tags/ShortTag.java:32-34 | Null is written as `"null"`; a value is written as canonical decimal text denoting it |
| `ShortTag.DeserializeValue` | src/main/java/net/darmo_creations/gui_framework/config/tags/ShortTag.java:37-44 | Reading gives a number exactly for well-formed text denoting a value in `[-32768, 32767]`, and null otherwise, a null text included |
| `ShortTag.SerializeValue` | src/main/java/net/darmo_creations/gui_framework/config/tags/AbstractTag.java:86-88 | `serializeValue` throws `ClassCastException` exactly for a non-null value that is not a `Short` |
| `ShortTag.RoundTrip` | src/main/java/net/darmo_creations/gui_framework/config/tags/ShortTag.java:32-44 | Reading back what was written gives every 16-bit value, and null, back |
| `ShortTag.CanonicalTextRoundTrip` | src/main/java/net/darmo_creations/gui_framework/config/tags/ShortTag.java:32-44 | Canonical text that reads as a value is written back unchanged |
| `LongTag.New` | src/main/java/net/darmo_creations/gui_framework/config/tags/LongTag.java:27-29 | `new LongTag(name)` is the tag `(name, Long.class)`, and a null name throws |
| `LongTag.SerializeValueGeneric` | src/main/java/net/darmo_creations/gui_framework/config/tags/LongTag.java:32-34 | Null is written as `"null"`; a value is written as canonical decimal text denoting it |
| `LongTag.DeserializeValue` | src/main/java/net/darmo_creations/gui_framework/config/tags/LongTag.java:37-44 | Reading gives a number exactly for well-formed text denoting a value in `[-2^63, 2^63-1]`, and null otherwise, a null text included |
| `LongTag.SerializeValue` | src/main/java/net/darmo_creations/gui_framework/config/tags/AbstractTag.java:86-88 | `serializeValue` throws `ClassCastException` exactly for a non-null value that is not a `Long` |
| `LongTag.RoundTrip` | src/main/java/net/darmo_creations/gui_framework/config/tags/LongTag.java:32-44 | Reading back what was written gives every 64-bit value, and null, back |
| `LongTag.CanonicalTextRoundTrip` | src/main/java/net/darmo_creations/gui_framework/config/tags/LongTag.java:32-44 | Canonical text that reads as a value is written back unchanged |
| `Language.Language.constructor` | src/main/java/net/darmo_creations/gui_framework/config/Language.java:72-100 | A language keeps the name, code and locale it was made with, in final fields that its getters return |
| `Language.Locale.ToString` | src/main/java/net/darmo_creations/gui_framework/config/Language.java:41 | The code `init` files a language under is `Locale.toString()`. It is empty without a language and a country. Otherwise it is the language, then `_` and the country when a country or variant follows, then `_` and the variant |
| `Language.LocaleTextExamples` | src/main/java/net/darmo_creations/gui_framework/config/Language.java:41 | `Locale.toString()` gives the JDK's documented texts: `en`, `de_DE`, `_GB`, `en_US_WIN`, `de__POSIX`, and the empty text for a variant alone |
| `Language.Language.ToString` | src/main/java/net/darmo_creations/gui_framework/config/Language.java:102-105 | `toString()` is the language's name |
| `Language.FileStep` | src/main/java/net/darmo_creations/gui_framework/config/Language.java:41 | Filing the next entry's language under its locale's code keeps every code filed, and keeps the last entry with each code as its winner |
| `Language.FiledAll` | src/main/java/net/darmo_creations/gui_framework/config/Language.java:39-42 | After every entry is visited, the filed codes are exactly the codes of the configured locales |
| `Language.LanguageRegistry.Init` | src/main/java/net/darmo_creations/gui_framework/config/Language.java:39-42 | `init` drops the previous languages. Each language is filed under its locale's code, which equals its own code. The last entry visited wins a shared code |
| `Language.LanguageRegistry.constructor` | src/main/java/net/darmo_creations/gui_framework/config/Language.java:32 | Before `init`, the static table of languages is null |
| `Language.LanguageRegistry.GetDefault` | src/main/java/net/darmo_creations/gui_framework/config/Language.java:54-56 | `getDefault()` is the language filed under `"default"`, null if none, and throws before `init` |
| `Language.LanguageRegistry.FromCode` | src/main/java/net/darmo_creations/gui_framework/config/Language.java:64-70 | `fromCode(c)` is the language filed under `c`, null if there is none, and throws before `init` |
| `Language.LanguageRegistry.FromCodeOfStored` | src/main/java/net/darmo_creations/gui_framework/config/Language.java:64-70 | Looking up a stored language's own code finds that same language |
| `ApplicationRegistry.ApplicationRegistry.constructor` | src/main/java/net/darmo_creations/gui_framework/ApplicationRegistry.java:39-63 | Before any call, the application, the language list and the default language are all null |
| `ApplicationRegistry.ApplicationRegistry.RegisterApplication` | src/main/java/net/darmo_creations/gui_framework/ApplicationRegistry.java:46-48 | Registering null throws and changes nothing; otherwise the application is stored |
| `ApplicationRegistry.ApplicationRegistry.GetApplication` | src/main/java/net/darmo_creations/gui_framework/ApplicationRegistry.java:54-58 | `getApplication()` throws `IllegalStateException` exactly when none is registered, and otherwise returns it |
| `ApplicationRegistry.ApplicationRegistry.SetLanguages` | src/main/java/net/darmo_creations/gui_framework/ApplicationRegistry.java:85-90 | The list is always stored, in order. A non-empty list makes its first element the default. An empty list throws `IllegalArgumentException` and keeps the old default |
| `ApplicationRegistry.ApplicationRegistry.GetLanguages` | src/main/java/net/darmo_creations/gui_framework/ApplicationRegistry.java:95-97 | `getLanguages()` returns a new array holding the stored languages in order, and throws before `setLanguages` |
| `ApplicationRegistry.ApplicationRegistry.GetDefaultLanguage` | src/main/java/net/darmo_creations/gui_framework/ApplicationRegistry.java:102-104 | `getDefaultLanguage()` is the stored default: null before any call, then the first element of the last non-empty list given to `setLanguages` |
| `ApplicationRegistry.ApplicationRegistry.GetLanguageFromCode` | src/main/java/net/darmo_creations/gui_framework/ApplicationRegistry.java:112-118 | The result is the first language in list order whose code equals `c`, or null if none does. A null element met earlier throws, as does a missing list |
| `WritableConfig.DefaultValues.constructor` | src/main/java/net/darmo_creations/gui_framework/config/WritableConfig.java:37 | The static registry `DEFAULT_VALUES` starts as an empty map |
| `WritableConfig.DefaultValues.RegisterKey` | src/main/java/net/darmo_creations/gui_framework/config/WritableConfig.java:45-47 | After `registerKey(k, d)`, `k` is registered and its default value is the registry map, whatever `d` is |
| `WritableConfig.DefaultValues.GetRegisteredKeys` | src/main/java/net/darmo_creations/gui_framework/config/WritableConfig.java:52-54 | The registered keys, as a new set value |
| `WritableConfig.DefaultValues.GetKeyFromName` | src/main/java/net/darmo_creations/gui_framework/config/WritableConfig.java:63-65 | The result is a registered tag whose value-class name equals the type name, and is empty exactly when there is none; `name` is not used |
| `WritableConfig.DefaultValues.GetDefaultValue` | src/main/java/net/darmo_creations/gui_framework/config/WritableConfig.java:73-75 | Null for a null or unregistered tag, otherwise the registered value |
| `WritableConfig.InitialEntries` | src/main/java/net/darmo_creations/gui_framework/config/WritableConfig.java:85-86 | A new config's map holds every registered tag with its registered value, plus `CHECK_UPDATES` set to `true` |
| `WritableConfig.WritableConfig.New` | src/main/java/net/darmo_creations/gui_framework/config/WritableConfig.java:83-87 | The constructor throws when the registry has no default language; otherwise the new config has that language and the initial entries |
| `WritableConfig.NewConfigEntries` | src/main/java/net/darmo_creations/gui_framework/config/WritableConfig.java:83-87 | In a new config, `CHECK_UPDATES` is `true` and every other registered tag holds the registry map |
| `WritableConfig.WritableConfig.GetLanguage` | src/main/java/net/darmo_creations/gui_framework/config/WritableConfig.java:92-94 | `getLanguage()` is the config's language, never null, as `New` and `SetLanguage` set it |
| `WritableConfig.WritableConfig.SetLanguage` | src/main/java/net/darmo_creations/gui_framework/config/WritableConfig.java:92-103 | `setLanguage(null)` throws and keeps the language; otherwise `getLanguage()` returns the argument |
| `WritableConfig.WritableConfig.GetValue` | src/main/java/net/darmo_creations/gui_framework/config/WritableConfig.java:113-115 | Null for a null tag, a tag with no entry, or a tag set to null; otherwise the stored value |
| `WritableConfig.WritableConfig.SetValue` | src/main/java/net/darmo_creations/gui_framework/config/WritableConfig.java:124-128 | A non-null value whose class is not the tag's value class throws `ClassCastException` and leaves the map unchanged. Otherwise the value is stored, `getValue` returns it, and no other tag's value changes |
| `WritableConfig.WritableConfig.Clone` | src/main/java/net/darmo_creations/gui_framework/config/WritableConfig.java:135-144 | The clone is a new config with the same language and the same entries |
| `WritableConfig.CloneIsIndependent` | src/main/java/net/darmo_creations/gui_framework/config/WritableConfig.java:135-139 | After cloning, a write to the copy and a write to the original each change only their own map |
| `ConfigKey.ConfigKey.constructor` | src/main/java/net/darmo_creations/gui_framework/config/ConfigKey.java:37-54 | getters return exactly the constructor arguments, null ones included, from final fields |
| `DefaultGlobalConfig.DefaultValues.constructor` | src/main/java/net/darmo_creations/gui_framework/config/DefaultGlobalConfig.java:34 | The static registry `DEFAULT_VALUES` starts as an empty map |
| `DefaultGlobalConfig.DefaultValues.RegisterKey` | src/main/java/net/darmo_creations/gui_framework/config/DefaultGlobalConfig.java:42-44 | After `registerKey(k, d)`, `k` is registered and its default value is the registry map, whatever `d` is |
| `DefaultGlobalConfig.DefaultValues.GetRegisteredKeys` | src/main/java/net/darmo_creations/gui_framework/config/DefaultGlobalConfig.java:49-51 | The registered keys, as a new set value |
| `DefaultGlobalConfig.DefaultValues.GetKeyFromName` | src/main/java/net/darmo_creations/gui_framework/config/DefaultGlobalConfig.java:60-62 | The result is a registered key whose own class is exactly `type`, and is empty exactly when there is none; `name` is not used |
| `DefaultGlobalConfig.DefaultValues.GetDefaultValue` | src/main/java/net/darmo_creations/gui_framework/config/DefaultGlobalConfig.java:70-72 | Null for a null or unregistered key, otherwise the registered value |
| `DefaultGlobalConfig.DefaultGlobalConfig.New` | src/main/java/net/darmo_creations/gui_framework/config/DefaultGlobalConfig.java:80-84 | The constructor always throws. It throws `NullPointerException` without a default language or a `CHECK_UPDATES` key, and `ClassCastException` otherwise |
| `DefaultGlobalConfig.DefaultGlobalConfig.GetLanguage` | src/main/java/net/darmo_creations/gui_framework/config/DefaultGlobalConfig.java:89-91 | `getLanguage()` is the config's language, never null, as `SetLanguage` sets it |
| `DefaultGlobalConfig.DefaultGlobalConfig.SetLanguage` | src/main/java/net/darmo_creations/gui_framework/config/DefaultGlobalConfig.java:89-100 | `setLanguage(null)` throws and keeps the language; otherwise `getLanguage()` returns the argument |
| `DefaultGlobalConfig.DefaultGlobalConfig.GetValue` | src/main/java/net/darmo_creations/gui_framework/config/DefaultGlobalConfig.java:110-112 | Null for a null key, a key with no entry, or a key set to null; otherwise the stored value |
| `DefaultGlobalConfig.DefaultGlobalConfig.SetValue` | src/main/java/net/darmo_creations/gui_framework/config/DefaultGlobalConfig.java:121-125 | A non-null value whose class is not the key object's own class throws `ClassCastException` and leaves the map unchanged. Otherwise the value is stored and no other key's value changes |
| `DefaultGlobalConfig.BoxedValuesRejected` | src/main/java/net/darmo_creations/gui_framework/config/DefaultGlobalConfig.java:122 | No boxed `Boolean`, `Short`, `Integer` or `Long` value passes the check, whatever the key's value class is |
| `DefaultGlobalConfig.DefaultGlobalConfig.Clone` | src/main/java/net/darmo_creations/gui_framework/config/DefaultGlobalConfig.java:132-141 | The clone is a new config with the same language and the same entries |
| `DefaultGlobalConfig.CloneIsIndependent` | src/main/java/net/darmo_creations/gui_framework/config/DefaultGlobalConfig.java:132-136 | After cloning, a write to the copy and a write to the original each change only their own map |
| `DefaultGlobalConfig.EqualFieldsDistinctKeys` | src/main/java/net/darmo_creations/gui_framework/config/ConfigKey.java:28-83 | Two keys made with the same name and value class are different map keys: setting one leaves the other unset |

## Left out

- `AbstractTagTest.HashcodeDifferentTypes`: proves the test's expectation only under the condition that `Integer.class` and `Boolean.class` get different identity hashes. `Class` does not override `hashCode`, so Java does not guarantee it, and the model takes the identity hash as a parameter of type `int`.
- A null tag or key is modelled as the argument of `getValue` and `getDefaultValue` (`None`, or a null `ConfigKey?`), and as the `CHECK_UPDATES` key of `new DefaultGlobalConfig()`. It is not modelled as the key argument of `setValue` or `registerKey`, nor as a key stored in a map. In Java, `setValue(null, null)` stores a null key. `setValue(null, v)` with a non-null `v` throws `NullPointerException` before anything is stored, since the check calls `key.getValueClass()` (`WritableConfig.java:125`) or `key.getClass()` (`DefaultGlobalConfig.java:122`) on the null key. `registerKey(null, d)` stores a null key too. `getRegisteredKeys()` then returns it (`WritableConfig.java:53`, `DefaultGlobalConfig.java:50`). The stream filter of `getKeyFromName` dereferences it and throws `NullPointerException` (`WritableConfig.java:64`, `DefaultGlobalConfig.java:61`). `ConfigDao.save` throws the same when it calls `getName()` on it (`ConfigDao.java:125-127`).
- A null list passed to `setLanguages` is not modelled; Java throws `NullPointerException` from the `ArrayList` copy. A null name or a null locale in the map given to `Language.init` is not modelled either; a null locale throws `NullPointerException` at `toString()`, and a null name is stored as the language's name. `Language.init(null)` is not modelled: it first replaces the table with an empty map (`Language.java:40`), then throws `NullPointerException` at `config.entrySet()` (`Language.java:41`), so the earlier languages are lost.
- The varargs `setLanguages(Language...)` is not modelled separately. It wraps its array in a list and calls the list version.
- `Language.getLanguages` is left out. It copies the `String` keys of the table into a `Language[]`. Before `init` it throws `NullPointerException`. For an empty table it returns an empty array. For a non-empty table it throws `ArrayStoreException`.
- `ConfigKey.serializeValue` and `deserializeValue` are left out. They call abstract serialisers. No subclass of `ConfigKey` (such as the `BooleanConfigKey` that `MainController` imports) is among the files modelled, so those serialisers are unknown.
- `DefaultConfigKeys.CHECK_UPDATES` is used by `DefaultGlobalConfig`, but `DefaultConfigKeys` is not part of this model. It is the parameter `checkUpdates`.
- `Integer.parseInt`, `Short.parseShort` and `Long.parseLong` are modelled for ASCII digits only. `Character.digit` also accepts other Unicode decimal digits, such as full-width ones.
- `JavaLang.StringHashCode` works on Dafny characters, which are Unicode scalar values. Java hashes UTF-16 code units, so the two agree only for text in the Basic Multilingual Plane.
- `Locale` is modelled by its language, country and variant, with `toString` following the JDK for those three parts. Scripts, extensions and the case normalisation of the `Locale` constructor are left out.
- A class object is identified by its name. Distinct classes of the same name from different class loaders are not modelled.
- Exception messages are not modelled, only exception types.
- The two static maps stored as values are represented by a reference marker. Their contents are read through the registry objects.
- The unchecked `(T)` cast in `getValue` and `getDefaultValue` is not modelled, nor the `ClassCastException` a caller may later get from it.
- The event bus `EVENTS_BUS` of `ApplicationRegistry` is left out. It belongs to an event library outside the repository.
- The XML persistence of configs (`ConfigDao`), the floating-point tags, the Swing frames, dialogs and controllers, the updates checker and the start-up code are left out. They are I/O, GUI and floating-point code outside the configuration core.
