/** The values that travel as `object` between the argument types: what `GetParsedValue`
    returns and what `SetParsedValue` takes, each tagged with its run-time type. */
module Objects {
  import opened DotNet

  datatype Obj =
    | IntObj(i: int32)
    | UIntObj(u: uint32)
    | LongObj(l: int64)
    | ULongObj(ul: uint64)
    | StringObj(s: string)
    | BoolObj(b: bool)
      /** A member of an enum type, by the type's name and the member's name. */
    | EnumObj(enumType: string, name: string)
    | StringArray(strings: seq<string>)
    | ObjArray(items: seq<Obj>)
      /** A value of a type no argument kind accepts, such as a float. */
    | OtherObj(typeName: string)
    | Null
}
