/** Loosely typed request values, as protobuf's Struct carries them. */
module Structs {
  datatype Value =
    | NullValue
    | NumberValue(number: real)
    | StringValue(text: string)
    | BoolValue(flag: bool)
    | StructValue(fields: map<string, Value>)
    | ListValue(values: seq<Value>)

  /** `GetStringValue`, which answers the empty string for a missing or ill-typed field. */
  function StringField(fields: map<string, Value>, key: string): string {
    if key in fields && fields[key].StringValue? then fields[key].text else ""
  }
}
