/**
 * `ConfigKey`: the key of a `DefaultGlobalConfig`. It has final fields and no
 * `equals` or `hashCode` of its own, so keys compare by identity: a Dafny class.
 */
module ConfigKey {
  import opened JavaLang

  /**
   * The run-time class of a key: `ConfigKey` is abstract, so this is the class
   * of one of its subclasses, and none of the library classes the model names.
   */
  type KeyClass = c: JClass | !IsModelledLibraryClass(c) witness JClass("net.darmo_creations.gui_framework.config.ConfigKey")

  class ConfigKey {
    const name: Option<string>
    const valueClass: Option<JClass>
    const keyClass: KeyClass

    /** `ConfigKey(name, valueClass)` on an instance of `keyClass`; unlike a tag, `null`s are accepted. */
    constructor (name: Option<string>, valueClass: Option<JClass>, keyClass: KeyClass)
      ensures GetName() == name && GetValueClass() == valueClass && GetClass() == keyClass
    {
      this.name := name;
      this.valueClass := valueClass;
      this.keyClass := keyClass;
    }

    /** `getName()` */
    function GetName(): Option<string> { name }

    /** `getValueClass()` */
    function GetValueClass(): Option<JClass> { valueClass }

    /** `getClass()` */
    function GetClass(): KeyClass { keyClass }
  }
}
