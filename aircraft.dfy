/**
 * The shapes of the data the gateway reads: one aircraft record as the feed's
 * JSON decodes it (a dictionary of JSON values), and one known-craft row as
 * the CSV reader yields it (a dictionary of strings).
 */
module Aircraft {

  /** A JSON value of an aircraft record. `json` decodes a number written
      without fraction or exponent to an `int` and any other to a `float`;
      the two print differently (`8` and `8.0`), so they stay apart. The text
      Python prints for a float is supplied from outside (see `Foreign`). */
  datatype Value = Null | Str(s: string) | Int(i: int) | Num(n: real)

  /** An aircraft record: a Python `dict` from field name to JSON value. */
  type Craft = map<string, Value>

  /** A known-craft row: a Python `dict` from column name to cell text. */
  type Row = map<string, string>

  /** `craft.get(key, default)`. */
  function GetOr(craft: Craft, key: string, default: Value): Value {
    if key in craft then craft[key] else default
  }

  /** `craft.get(key)`: `None` for a missing key. */
  function Get(craft: Craft, key: string): Value {
    GetOr(craft, key, Null)
  }

  /** Python truthiness of a JSON value. */
  predicate Truthy(v: Value) {
    match v
    case Null => false
    case Str(s) => s != ""
    case Int(i) => i != 0
    case Num(n) => n != 0.0
  }

  /** The source calls `.strip()` on a field exactly when the field is truthy;
      that call only succeeds on a string. */
  predicate StripSafe(v: Value) {
    Truthy(v) ==> v.Str?
  }

  /** The record carries both `lat` and `lon` (neither missing nor JSON null). */
  predicate HasPosition(craft: Craft) {
    !Get(craft, "lat").Null? && !Get(craft, "lon").Null?
  }
}
