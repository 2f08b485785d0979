/**
 * The type-erased values a DataObject stores (std::any in GpgFrontend).
 * A value carries its runtime type; two values have the same runtime type
 * exactly when their TypeTags are equal, as std::type_index compares types:
 * no conversions, so a C++ `int` is never a `size_t`.
 */
module Values {
  /** C++ `int` on the platforms GpgFrontend targets. */
  newtype Int32 = x: int | -0x8000_0000 <= x < 0x8000_0000

  /** C++ `size_t` on a 64-bit platform. */
  newtype SizeT = x: int | 0 <= x < 0x1_0000_0000_0000_0000

  /**
   * The runtime type of a stored value, as `std::any::type()` reports it.
   * Each C++ type has exactly one tag: `NamedType` is only for types other
   * than `void`, `int`, `size_t`, `bool` and `std::string`, which have tags
   * of their own, so no `NamedType` name is one of those.
   */
  datatype TypeTag =
    | VoidType               // typeid(void): the type of an empty std::any
    | IntType
    | SizeType
    | BoolType
    | StringType             // std::string
    | NamedType(name: string) // any other C++ type, identified by its name

  /** A value as held inside a std::any. */
  datatype Value =
    | EmptyAny
    | IntValue(i: Int32)
    | SizeValue(n: SizeT)
    | BoolValue(b: bool)
    | StringValue(s: string)
    | NamedValue(typeName: string, payload: seq<bv8>)

  /** The runtime type of `v` (`std::any::type()`). */
  function TypeOf(v: Value): TypeTag
  {
    match v
    case EmptyAny => VoidType
    case IntValue(_) => IntType
    case SizeValue(_) => SizeType
    case BoolValue(_) => BoolType
    case StringValue(_) => StringType
    case NamedValue(n, _) => NamedType(n)
  }
}
