/** android.os.Bundle, reduced to what user-service requests use: a mutable
    string-keyed map whose values are strings, 32-bit ints or booleans. */
module Bundles {

  /** A Java int. */
  type Int32 = x: int | -0x8000_0000 <= x < 0x8000_0000

  datatype Value = Str(text: string) | Int(number: Int32) | Bool(flag: bool)

  class Bundle {
    var entries: map<string, Value>

    constructor ()
      ensures entries == map[]
    {
      entries := map[];
    }

    /** Bundle.putString: adds the key or overwrites its value. */
    method PutString(key: string, value: string)
      modifies this
      ensures entries == old(entries)[key := Str(value)]
    {
      entries := entries[key := Str(value)];
    }

    method PutInt(key: string, value: Int32)
      modifies this
      ensures entries == old(entries)[key := Int(value)]
    {
      entries := entries[key := Int(value)];
    }

    method PutBoolean(key: string, value: bool)
      modifies this
      ensures entries == old(entries)[key := Bool(value)]
    {
      entries := entries[key := Bool(value)];
    }
  }
}
