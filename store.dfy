/**
 * The document store's value model: the `[String: Any]` dictionaries the
 * app writes and reads, restricted to the kinds of value it uses.
 */
module Store {
  import opened Wrappers

  /** A point in time (Swift `Date`, store `Timestamp`), as a plain count of ticks. */
  type Instant = int

  datatype Value =
    | Str(s: string)
    | Flag(b: bool)
    | Time(t: Instant)
    | List(items: seq<Value>)
    | Dict(fields: Record)
      /** `FieldValue.serverTimestamp()`: the store fills in its own clock when writing. */
    | ServerTimestamp

  type Record = map<string, Value>

  /** `data[key] as? String`. */
  function CastString(data: Record, key: string): (r: Option<string>)
    ensures r.Some? <==> key in data && data[key].Str?
    ensures r.Some? ==> r.value == data[key].s
  {
    if key in data && data[key].Str? then Some(data[key].s) else None
  }

  /** `data[key] as? String ?? ""`. */
  function StringOr(data: Record, key: string): string {
    CastString(data, key).GetOr("")
  }

  /** What the store keeps when it writes `data` at time `now`: server timestamps become that time. */
  function ResolveServerTimestamps(data: Record, now: Instant): (r: Record)
    ensures r.Keys == data.Keys
    ensures forall k :: k in data ==> r[k] == if data[k] == ServerTimestamp then Time(now) else data[k]
  {
    map k | k in data :: if data[k] == ServerTimestamp then Time(now) else data[k]
  }
}
