/**
 * The values the OpenObserve search API hands back once its JSON envelope is
 * decoded: a hit is a row mapping column names to values, and a search
 * response carries the hits with the backend's own total and elapsed time.
 * Also the query document that both services send to the search endpoint.
 */
module Search {
  import opened Wrappers

  /**
   * A decoded column value. `Num` is a JSON number (a `float64` in the logs
   * service, a `json.Number` in the tracing service); `Other` is anything else
   * (bool, null, object, array), carried with the text `%v` renders for it.
   */
  datatype Value = Str(str: string) | Num(num: int) | Other(text: string)

  /** One row of a search response. */
  type Hit = map<string, Value>

  /** The type assertion `hit[key].(string)` succeeds. */
  predicate HasString(hit: Hit, key: string) {
    key in hit && hit[key].Str?
  }

  /** `field` is what a string extraction leaves: the column's string when it holds one, else "". */
  predicate TakesString(field: string, hit: Hit, key: string) {
    if HasString(hit, key) then field == hit[key].str else field == ""
  }

  /** `v, ok := hit[key].(string)`: the string when the key holds one, else "". */
  function StringField(hit: Hit, key: string): (r: string)
    ensures TakesString(r, hit, key)
    ensures r != "" ==> key in hit && hit[key] == Str(r)
  {
    if key in hit && hit[key].Str? then hit[key].str else ""
  }

  /** `v, ok := hit[key].(json.Number)` (or `.(float64)`): the number when the key holds one. */
  function NumberField(hit: Hit, key: string): (r: Option<int>)
    ensures r.Some? <==> key in hit && hit[key].Num?
    ensures r.Some? ==> r.value == hit[key].num
  {
    if key in hit && hit[key].Num? then Some(hit[key].num) else None
  }

  /** The number a text of decimal digits denotes, most significant digit first (a reference definition). */
  function DecimalValue(s: string): int
    decreases |s|
  {
    if s == [] then 0 else DecimalValue(s[..|s| - 1]) * 10 + (s[|s| - 1] as int - 48)
  }

  /** The decimal text of a natural number: its digits, without leading zeros. */
  function Digits(n: nat): (r: string)
    ensures |r| > 0
    ensures forall i :: 0 <= i < |r| ==> '0' <= r[i] <= '9'
    ensures DecimalValue(r) == n
    ensures n > 0 ==> r[0] != '0'
    decreases n
  {
    if n < 10 then [(48 + n) as char] else Digits(n / 10) + [(48 + n % 10) as char]
  }

  /** `fmt.Sprintf("%v", value)`: how an attribute value is shown to callers. */
  function Render(v: Value): string {
    match v
    case Str(s) => s
    case Num(n) => if n < 0 then "-" + Digits(-n) else Digits(n)
    case Other(t) => t
  }

  /** `time.Time.UnixMicro` for a time given in nanoseconds since the epoch (rounds down). */
  function UnixMicro(nanos: int): (r: int)
    ensures r * 1000 <= nanos < r * 1000 + 1000
  {
    nanos / 1000
  }

  /**
   * The `query` object posted to `/api/{org}/_search`: SQL text, the scan
   * window in microseconds, the page (`from`, `size`) and, when the source
   * sets it, the top-level `timeout`.
   */
  datatype SearchQuery = SearchQuery(
    sql: string,
    startTime: int,
    endTime: int,
    from: int,
    size: int,
    timeout: Option<int>)

  /** The decoded response envelope `{took, hits, total}`. */
  datatype SearchResponse = SearchResponse(took: int, hits: seq<Hit>, total: int)

  /** The errors the core reports; `Wrapped` is `fmt.Errorf("<context>: %w", inner)`. */
  datatype Error =
    | NamespaceRequired
    | UnsupportedOperator(op: string)
    | AlertNotFound(name: string)
    | SpanNotFound(traceId: string, spanId: string)
    | StatusError(code: int)
    | Transport(message: string)
    | Wrapped(context: string, inner: Error)
}
