/** The values the attribute editor works on: the closed data-type enum, one
    option entry of a list-typed attribute, and a persisted attribute. */
module AttributeTypes {

  /** A value that may be absent (`undefined` or `null`). */
  datatype Option<+T> = None | Some(value: T) {
    function GetOr(default: T): T {
      match this
      case Some(v) => v
      case None => default
    }
  }

  /** The four members of `DataAttributeDataType`. `Unrecognised` stands for
      any other value reaching a `switch` at run time, which the `default`
      branches of the catalog handle. */
  datatype DataType = Boolean | Number | String | List | Unrecognised(raw: string) {
    /** True for the four members of the enum. */
    predicate IsMember() {
      !Unrecognised?
    }
  }

  /** One selectable value of a list-typed attribute. */
  datatype OptionEntry = OptionEntry(value: string)

  /** `DataAttributeOptions`: the ordered list of option entries. Duplicates
      and empty values are allowed. */
  datatype OptionsPayload = OptionsPayload(options: seq<OptionEntry>)

  /** A persisted data attribute as the editor reads it; every field the
      editor falls back on when it is missing is optional here. */
  datatype Attribute = Attribute(
    name: Option<string>,
    description: Option<string>,
    dataType: Option<DataType>,
    options: Option<OptionsPayload>,
    pinned: Option<bool>)
}
