/** The defaulting getters of the data codecs (JsonUtil): a lookup that never
    throws and falls back to a default. */
module JsonUtil {
  import opened Wrappers
  import opened Json

  /** The `const char* key` argument, which may be a null pointer. */
  datatype Key = NullKey | Key(name: string)

  /** The value stored under `key`, when there is one and it is not JSON null. */
  function Present(j: Json, key: Key): Option<Json>
  {
    if key.NullKey? then None
    else match Find(j, key.name)
      case Some(v) => if v.Null? then None else Some(v)
      case None => None
  }

  /** `GetStringOr`: the stored string, else the default. */
  function GetStringOr(j: Json, key: Key, def: string): (r: string)
    ensures Present(j, key).Some? && Present(j, key).value.Str? ==> r == Present(j, key).value.s
    ensures !(Present(j, key).Some? && Present(j, key).value.Str?) ==> r == def
  {
    match Present(j, key)
    case Some(Str(s)) => s
    case _ => def
  }

  /** `GetIntOr`: a stored JSON integer, truncated to `int`; anything else
      (float, string, bool, array, object) gives the default. */
  function GetIntOr(j: Json, key: Key, def: Int32): (r: Int32)
    ensures Present(j, key).Some? && Present(j, key).value.Int? ==> r == Wrap32(Present(j, key).value.i)
    ensures !(Present(j, key).Some? && Present(j, key).value.Int?) ==> r == def
  {
    match Present(j, key)
    case Some(Int(i)) => Wrap32(i)
    case _ => def
  }

  /** `GetInt64Or`: as `GetIntOr`, with a 64-bit result. */
  function GetInt64Or(j: Json, key: Key, def: Int64): (r: Int64)
    ensures Present(j, key).Some? && Present(j, key).value.Int? ==> r == Wrap64(Present(j, key).value.i)
    ensures !(Present(j, key).Some? && Present(j, key).value.Int?) ==> r == def
  {
    match Present(j, key)
    case Some(Int(i)) => Wrap64(i)
    case _ => def
  }

  /** Reading back what an object stores: the getters return the stored value
      whatever the default, as long as it fits the getter's width. */
  lemma GettersReadStored(m: map<string, Json>, k: string, s: string, i: Int32, w: Int64,
                          ds: string, di: Int32, dw: Int64)
    ensures GetStringOr(Obj(m[k := Str(s)]), Key(k), ds) == s
    ensures GetIntOr(Obj(m[k := Int(i)]), Key(k), di) == i
    ensures GetInt64Or(Obj(m[k := Int(w)]), Key(k), dw) == w
  {
  }

  /** Reading one stored field, the form the codec round trips use. */
  lemma ReadString(j: Json, k: string, v: string, d: string)
    requires j.Obj? && k in j.fields && j.fields[k] == Str(v)
    ensures GetStringOr(j, Key(k), d) == v
  {
  }

  lemma ReadInt(j: Json, k: string, v: Int32, d: Int32)
    requires j.Obj? && k in j.fields && j.fields[k] == Int(v)
    ensures GetIntOr(j, Key(k), d) == v
  {
  }

  lemma ReadInt64(j: Json, k: string, v: Int64, d: Int64)
    requires j.Obj? && k in j.fields && j.fields[k] == Int(v)
    ensures GetInt64Or(j, Key(k), d) == v
  {
  }

  /** Every getter falls back to its default for a null key, a non-object
      document, a missing key or a JSON null. */
  lemma GettersDefaultWhenAbsent(j: Json, key: Key, ds: string, di: Int32, dw: Int64)
    requires key.NullKey? || !j.Obj? || key.name !in j.fields || j.fields[key.name].Null?
    ensures GetStringOr(j, key, ds) == ds
    ensures GetIntOr(j, key, di) == di
    ensures GetInt64Or(j, key, dw) == dw
  {
  }

  /** A present but empty string is returned as "", not as the default. */
  lemma EmptyStringIsNotAbsent(m: map<string, Json>, k: string, d: string)
    ensures GetStringOr(Obj(m[k := Str("")]), Key(k), d) == ""
  {
  }

  /** Floats, booleans, strings, arrays and objects are not JSON integers:
      the integer getters ignore them. */
  lemma IntGettersRejectNonIntegers(m: map<string, Json>, k: string, v: Json, di: Int32, dw: Int64)
    requires !v.Int?
    ensures GetIntOr(Obj(m[k := v]), Key(k), di) == di
    ensures GetInt64Or(Obj(m[k := v]), Key(k), dw) == dw
  {
  }
}
