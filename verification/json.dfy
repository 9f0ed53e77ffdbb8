/** JSON values as they travel between the three tiers, with the two ways the
    JavaScript client looks at them: truthiness (`if (x)`) and property access
    (`x.key`). */
module Json {
  import opened Base

  /** Objects are keyed maps: field order is not observable by any reader in
      the system, and no writer emits a key twice. */
  datatype Json =
    | Null
    | Bool(b: bool)
    | Num(n: real)
    | Str(s: string)
    | Arr(items: seq<Json>)
    | Obj(fields: map<string, Json>)

  /** JavaScript truthiness of a parsed JSON value: `null`, `false`, `0` and
      `""` are falsy; every array and object, even an empty one, is truthy. */
  predicate Truthy(j: Json)
  {
    match j
    case Null => false
    case Bool(b) => b
    case Num(n) => n != 0.0
    case Str(s) => s != ""
    case Arr(_) => true
    case Obj(_) => true
  }

  /** Property access `j.key` on a value that is not null; `None` stands for
      `undefined`. Only objects carry the data fields read in this system. */
  function Get(j: Json, key: string): Option<Json>
  {
    if j.Obj? && key in j.fields then Some(j.fields[key]) else None
  }
}
