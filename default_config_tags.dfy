/** `DefaultConfigTags`: the keys the framework itself uses. */
module DefaultConfigTags {
  import opened JavaLang
  import AbstractTag

  /** `CHECK_UPDATES = new BooleanTag("check_updates")`, a `Boolean`-valued tag. */
  const CHECK_UPDATES: AbstractTag.Tag := AbstractTag.Tag("check_updates", BooleanClass)
}
