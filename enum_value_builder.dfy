/** `EnumValueBuilder`: one constant of an enum type. */
module EnumValueBuilders {
  import opened Common
  import opened SchemaTypes

  class EnumValueBuilder {
    /** The name of the constant. */
    const constant: string
    var description: Option<string>

    /** The description starts out null. */
    constructor (constant: string)
      ensures this.constant == constant && description == None
    {
      this.constant := constant;
      description := None;
    }

    function Built(): GEnumValue
      reads this
    {
      GEnumValue(constant, description)
    }

    /** `build`: the value is named after the constant and carries the
        description only when it is set; the context is neither read nor changed. */
    method Build() returns (v: GEnumValue)
      ensures v == Built()
      ensures v.name == constant && v.description == description
    {
      v := GEnumValue(constant, None);
      if description.Some? {
        v := v.(description := description);
      }
    }
  }
}
