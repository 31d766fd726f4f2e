/** The values that cross between the agent and the page: what Python's `json.loads` produces
    and what the render callbacks receive as a tool result. */
module JsonValue {

  /** A JSON value. Numbers are exact reals (integers and floats are not told apart, and
      neither NaN nor the infinities occur); an object keeps its members in iteration order,
      and its keys are taken to be distinct, as both JSON parsers produce them. */
  datatype Json =
    | JNull
    | JBool(b: bool)
    | JNum(n: real)
    | JStr(s: string)
    | JArr(items: seq<Json>)
    | JObj(members: seq<(string, Json)>)
}
