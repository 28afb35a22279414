/** JSON documents as the runtime sees them (nlohmann::json), the fixed-width
    integer types the records store, and the library's lookup rules
    (`find` and `value(key, default)`). */
module Json {
  import opened Wrappers

  type Int32 = x: int | -0x8000_0000 <= x < 0x8000_0000
  type Int64 = x: int | -0x8000_0000_0000_0000 <= x < 0x8000_0000_0000_0000

  /** A JSON value. `Int` holds a signed or unsigned 64-bit integer; a
      floating-point number is kept only as its value truncated toward zero,
      which is all the model ever reads of it. */
  datatype Json =
    | Null
    | Bool(b: bool)
    | Int(i: int)
    | Float(truncated: int)
    | Str(s: string)
    | Arr(items: seq<Json>)
    | Obj(fields: map<string, Json>)

  const EmptyObject: Json := Obj(map[])

  /** Two's-complement truncation to 32 bits (a C++ conversion to `int`). */
  function Wrap32(x: int): (r: Int32)
    ensures -0x8000_0000 <= x < 0x8000_0000 ==> r == x
  {
    (x + 0x8000_0000) % 0x1_0000_0000 - 0x8000_0000
  }

  /** Two's-complement truncation to 64 bits (a C++ conversion to `int64_t`). */
  function Wrap64(x: int): (r: Int64)
    ensures -0x8000_0000_0000_0000 <= x < 0x8000_0000_0000_0000 ==> r == x
  {
    (x + 0x8000_0000_0000_0000) % 0x1_0000_0000_0000_0000 - 0x8000_0000_0000_0000
  }

  /** `j.find(key)`: only an object has members. */
  function Find(j: Json, key: string): Option<Json>
  {
    if j.Obj? && key in j.fields then Some(j.fields[key]) else None
  }

  /** Why `value(key, default)` throws `type_error`. */
  datatype TypeError = NotAnObject | WrongType(key: string)

  /** `get<int>()` (and any arithmetic type) accepts integers, floats and
      booleans; everything else throws. */
  function AsNumber(v: Json): Option<int>
  {
    match v
    case Int(i) => Some(i)
    case Float(t) => Some(t)
    case Bool(b) => Some(if b then 1 else 0)
    case _ => None
  }

  /** `j.value(key, def)` with a `std::string` default. */
  function ValueString(j: Json, key: string, def: string): (r: Result<string, TypeError>)
    ensures r.Failure? <==> !j.Obj? || (key in j.fields && !j.fields[key].Str?)
    ensures r.Success? && key !in j.fields ==> r.value == def
  {
    if !j.Obj? then Failure(NotAnObject)
    else match Find(j, key)
      case None => Success(def)
      case Some(v) => if v.Str? then Success(v.s) else Failure(WrongType(key))
  }

  /** `j.value(key, def)` with an `int` default. */
  function ValueInt(j: Json, key: string, def: Int32): (r: Result<Int32, TypeError>)
    ensures r.Failure? <==> !j.Obj? || (key in j.fields && AsNumber(j.fields[key]).None?)
    ensures r.Success? && key !in j.fields ==> r.value == def
  {
    if !j.Obj? then Failure(NotAnObject)
    else match Find(j, key)
      case None => Success(def)
      case Some(v) => if AsNumber(v).Some? then Success(Wrap32(AsNumber(v).value)) else Failure(WrongType(key))
  }

  /** `j.value(key, def)` with a `bool` default: only a JSON boolean converts. */
  function ValueBool(j: Json, key: string, def: bool): (r: Result<bool, TypeError>)
    ensures r.Failure? <==> !j.Obj? || (key in j.fields && !j.fields[key].Bool?)
    ensures r.Success? && key !in j.fields ==> r.value == def
  {
    if !j.Obj? then Failure(NotAnObject)
    else match Find(j, key)
      case None => Success(def)
      case Some(v) => if v.Bool? then Success(v.b) else Failure(WrongType(key))
  }

  /** `j.value(key, def)` with a `double` default. Only whether it throws is
      modelled: the numeric value feeds random sensor readings. */
  function ValueDoubleAccepted(j: Json, key: string): (r: Option<TypeError>)
    ensures r.Some? <==> !j.Obj? || (key in j.fields && AsNumber(j.fields[key]).None?)
  {
    if !j.Obj? then Some(NotAnObject)
    else match Find(j, key)
      case None => None
      case Some(v) => if AsNumber(v).Some? then None else Some(WrongType(key))
  }

  /** `j.value(key, def)` with a JSON default: any stored value is returned. */
  function ValueJson(j: Json, key: string, def: Json): (r: Result<Json, TypeError>)
    ensures r.Failure? <==> !j.Obj?
    ensures r.Success? ==> r.value == if key in j.fields then j.fields[key] else def
  {
    if !j.Obj? then Failure(NotAnObject)
    else match Find(j, key)
      case None => Success(def)
      case Some(v) => Success(v)
  }
}
