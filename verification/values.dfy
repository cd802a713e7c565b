/**
 * The dynamically typed values that cross the server's boundaries: handler
 * return values, JSON request and response documents, configuration entries
 * and database row cells. `Null` is Python's `None` / JSON `null`.
 */
module Values {

  datatype Value =
    | Null
    | Bool(flag: bool)
    | Int(number: int)
    | Str(text: string)
    | List(items: seq<Value>)
    | Dict(entries: map<string, Value>)

  /** A Python dict literal with no entries, `{}`. */
  const EmptyDict: Value := Dict(map[])
}
