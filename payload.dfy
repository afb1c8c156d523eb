/** Decoded JSON request bodies, and the two ways the handlers read them:
    Python truthiness (`if not data.get(k)`) and `data.get(k, old)`. */
module Payload {

  datatype Option<+T> = None | Some(value: T)

  /** A decoded JSON scalar as the handlers see it; JSON null is Python's None. */
  datatype Value = Null | Bool(b: bool) | Int(i: int) | Str(s: string)

  /** A request body: a JSON object. */
  type Data = map<string, Value>

  /** Python truthiness: None, False, 0 and "" are falsy, everything else is truthy. */
  predicate Truthy(v: Value)
  {
    match v
    case Null => false
    case Bool(b) => b
    case Int(i) => i != 0
    case Str(s) => s != ""
  }

  /** `data.get(key, default)`. */
  function Get(data: Data, key: string, default: Value): Value
  {
    if key in data then data[key] else default
  }

  /** The reference meaning of a partial update: every column whose key the body carries
      takes the body's value (a JSON null included), every other column keeps its value. */
  function Overlay(columns: map<string, Value>, data: Data): (r: map<string, Value>)
    ensures r.Keys == columns.Keys
    ensures forall k :: k in columns && k !in data ==> r[k] == columns[k]
    ensures forall k :: k in columns && k in data ==> r[k] == data[k]
  {
    map k | k in columns :: if k in data then data[k] else columns[k]
  }

  /** Sending the same partial update twice has the effect of sending it once. */
  lemma OverlayIdempotent(columns: map<string, Value>, data: Data)
    ensures Overlay(Overlay(columns, data), data) == Overlay(columns, data)
  {
  }

  /** An empty body changes nothing. */
  lemma OverlayEmpty(columns: map<string, Value>)
    ensures Overlay(columns, map[]) == columns
  {
  }

  /** Only the columns whose key the body carries can change. */
  lemma OverlayChanges(columns: map<string, Value>, data: Data, k: string)
    requires k in columns
    ensures Overlay(columns, data)[k] != columns[k] ==> k in data && data[k] != columns[k]
  {
  }
}
