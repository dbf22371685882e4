/**
 * The document values the database client exchanges (MojObject): null,
 * booleans, 64-bit integers, strings, arrays and objects. `put` on an object
 * replaces the value under that key.
 */
module Json {
  import opened MediaFiles

  datatype Value =
    | Null
    | Bool(b: bool)
    | Int(i: int)
    | Str(s: string)
    | Arr(items: seq<Value>)
    | Obj(fields: map<string, Value>)

  type Object = map<string, Value>

  const Int64Range: int := 0x1_0000_0000_0000_0000

  /**
   * `putInt` stores a signed 64-bit integer: a `uint64_t` argument at or above
   * 2^63 arrives as a negative number.
   */
  function FromUInt64(x: u64): int {
    if x < 0x8000_0000_0000_0000 then x else x - Int64Range
  }

  /** The stored integer is in the signed range and wraps back to the unsigned argument. */
  lemma FromUInt64Wraps(x: u64)
    ensures var r := FromUInt64(x);
      && -0x8000_0000_0000_0000 <= r < 0x8000_0000_0000_0000
      && (r + Int64Range) % Int64Range == x
      && (x < 0x8000_0000_0000_0000 ==> r == x)
  {
  }
}
