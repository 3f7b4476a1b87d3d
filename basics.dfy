/**
 Shared vocabulary of the CRM backend model: optional and fallible results,
 the fixed-width integer types the Rust code declares, an abstract JSON value
 and the HTTP statuses the handlers answer with.
 */
module Basics {

  datatype Option<+T> = None | Some(value: T)

  datatype Result<+T, +E> = Ok(value: T) | Err(error: E)

  /** Rust `i32`: every id that crosses the HTTP or SQL boundary. */
  type i32 = x: int | -0x8000_0000 <= x < 0x8000_0000

  /** Rust `i64`: what `serde_json::Value::as_i64` yields. */
  type i64 = x: int | -0x8000_0000_0000_0000 <= x < 0x8000_0000_0000_0000

  /** A `serde_json::Value`; its shape is never inspected by the core, only carried. */
  datatype Json =
    | JNull
    | JBool(b: bool)
    | JNumber(n: int)
    | JString(s: string)
    | JArray(items: seq<Json>)
    | JObject(fields: seq<(string, Json)>)

  /** The statuses the Rocket handlers of the core answer with on failure: 400, 401, 403 and 500. */
  datatype Status = BadRequest | Unauthorized | Forbidden | InternalServerError

  /** `reqwest::StatusCode::is_success`: the 2xx range. */
  predicate IsSuccess(code: int) {
    200 <= code < 300
  }
}
