/** JSON values as the client sees them after `json.loads`: the bodies it sends and the
    responses the database returns. Numbers are integers only. */
module Json {

  datatype Value =
    | Null
    | Bool(b: bool)
    | Num(n: int)
    | Str(s: string)
    | Arr(items: seq<Value>)
    | Obj(fields: map<string, Value>)

  /** The JSON object with no members, Python's `{}`. */
  const Empty: Value := Obj(map[])

  /** The headers the entity classes pass for JSON requests. */
  const AcceptJson: map<string, Value> := map["Accept" := Str("application/json")]
  const JsonHeaders: map<string, Value> :=
    map["Accept" := Str("application/json"), "Content-Type" := Str("application/json")]
}
