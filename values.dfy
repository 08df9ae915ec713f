/** The value tree shared by the four ports of the backtick-string text format,
    and the small result types their parsers return. */
module Values {

  /** An unsigned 8-bit byte, the element of a `B(..)` payload. */
  type byte = b: int | 0 <= b < 256

  /** One value of the format. Each port produces a subset of these variants:
      - `Int` is an exact integer (Go `int64`, Python `int`); the Rust port has no such variant;
      - `Number` is a floating-point number, kept as the decimal text it was scanned from;
      - `BigInt` is the payload of `BN(..)` (Rust `i64`, Go `*big.Int`);
      - `Date` is a parsed instant, kept as the text the port's serializer prints for it
        (for the Rust port, the raw `D(..)` payload);
      - `Object` maps keys to values; the ports store objects in hash maps or dicts,
        so the order in which members were read is not part of the value. */
  datatype Value =
    | Null
    | Bool(b: bool)
    | Int(i: int)
    | Number(text: string)
    | Str(s: string)
    | BigInt(n: int)
    | Bytes(bytes: seq<byte>)
    | Date(text: string)
    | Array(items: seq<Value>)
    | Object(fields: map<string, Value>)

  datatype Option<+T> = None | Some(value: T)

  /** The outcome of a parse that either produced a value or stopped at the first error. */
  datatype Result<+T, +E> = Ok(value: T) | Err(error: E)

  /** The outcome of one step of a cursor parser: the value read and the position after it. */
  datatype Step<+T, +E> = Done(value: T, next: nat) | Fail(error: E)

  /** A parser method that returns `r` and leaves its cursor at `pos` did what `step` says:
      on success it returned the value and stopped where the step ends; on failure it
      returned the error (the cursor is then of no further use). */
  predicate Outcome<T(==), E(==)>(step: Step<T, E>, r: Result<T, E>, pos: nat)
  {
    if r.Ok? then step == Done(r.value, pos) else step == Fail(r.error)
  }

  /** The calendar library the Go and Python ports call and that is not part of this model:
      each field reads a date payload and, when it parses, returns the text the port prints
      for the resulting instant. `dateTime` is the full date-time layout (RFC 3339 in Go,
      `datetime.fromisoformat` in Python) and `dateOnly` the `YYYY-MM-DD` layout. */
  datatype Calendar = Calendar(dateTime: string -> Option<string>, dateOnly: string -> Option<string>)

  /** The Go standard library calls that are not text handling: a calendar, and
      `finite(t)`, which holds when `strconv.ParseFloat(t, 64)` reads the well-formed number
      lexeme `t` without overflowing the float64 range. */
  datatype Library = Library(cal: Calendar, finite: string -> bool)
}
