/** Dynamic values as the Go code sees them after `encoding/json` decoding with
    `UseNumber`, and the checked accessors that stand for Go's type assertions. */
module Values {

  datatype Option<+T> = None | Some(value: T)

  /** The result of a step that may hit a Go runtime panic: a failed type
      assertion, a nil dereference or an index out of range. */
  datatype Outcome<+T> = Ok(value: T) | Panic {
    predicate IsFailure() { Panic? }
    function PropagateFailure<U>(): Outcome<U> requires Panic? { Panic }
    function Extract(): T requires Ok? { value }
  }

  /** A Go `(T, error)` pair reduced to the half that matters: a value, or the
      text of the error. */
  datatype Result<+T> = Success(value: T) | Failure(error: string)

  /** A value in a decoded configuration map (`map[string]interface{}`).
      `Num` is a `json.Number` holding an integer; `GoInt` is a native Go `int`,
      which JSON decoding never produces but in-process callers may store;
      `Null` is the nil interface; `Time` is a `time.Time` (seconds). */
  datatype Value =
    | Str(s: string)
    | Num(n: int)
    | GoInt(i: int)
    | Bool(b: bool)
    | Null
    | Obj(fields: map<string, Value>)
    | Arr(items: seq<Value>)
    | Time(t: int)

  type Config = map<string, Value>

  /** `m[k] == nil` in Go: the key is absent or holds JSON null. */
  predicate IsNil(m: Config, k: string) {
    k !in m || m[k] == Null
  }

  /** `m[k].(string)` */
  function StringAt(m: Config, k: string): Outcome<string> {
    if k in m && m[k].Str? then Ok(m[k].s) else Panic
  }

  /** `m[k].(bool)` */
  function BoolAt(m: Config, k: string): Outcome<bool> {
    if k in m && m[k].Bool? then Ok(m[k].b) else Panic
  }

  /** `m[k].(int)`: succeeds only on a native Go int. */
  function GoIntAt(m: Config, k: string): Outcome<int> {
    if k in m && m[k].GoInt? then Ok(m[k].i) else Panic
  }

  /** `m[k].(map[string]interface{})` */
  function ObjAt(m: Config, k: string): Outcome<Config> {
    if k in m && m[k].Obj? then Ok(m[k].fields) else Panic
  }

  /** `m[k].([]interface{})` */
  function ArrAt(m: Config, k: string): Outcome<seq<Value>> {
    if k in m && m[k].Arr? then Ok(m[k].items) else Panic
  }

  const MaxInt64: int := 0x7fff_ffff_ffff_ffff
  const MinInt64: int := -0x8000_0000_0000_0000

  /** `json.Number.Int64()` with its error ignored: strconv.ParseInt saturates
      at the int64 bounds on overflow. */
  function Int64Of(n: int): (r: int)
    ensures MinInt64 <= r <= MaxInt64
    ensures MinInt64 <= n <= MaxInt64 ==> r == n
    ensures n > MaxInt64 ==> r == MaxInt64
    ensures n < MinInt64 ==> r == MinInt64
  {
    if n > MaxInt64 then MaxInt64 else if n < MinInt64 then MinInt64 else n
  }

  /** `m[k].(json.Number).Int64()`, the conversion error discarded. */
  function NumberAt(m: Config, k: string): Outcome<int> {
    if k in m && m[k].Num? then Ok(Int64Of(m[k].n)) else Panic
  }
}
