/** Small building blocks shared by every package of the model: optional
    values (Go's nil pointers and comma-ok lookups), Go's `(value, err)`
    return pair, and an opaque instant with Go's `IsZero` test. */
module Foundation {

  /** A pointer that may be nil, or a lookup that may miss. */
  datatype Option<+T> = None | Some(value: T) {
    /** The pointed-to value, or `default` when nil. */
    function GetOr(default: T): T {
      match this
      case Some(v) => v
      case None => default
    }
  }

  /** Go's two-value return `(value, err)`: `err == None` is a nil error. */
  datatype Ret<+T, +E> = Ret(value: T, err: Option<E>) {
    predicate Ok() { err.None? }
  }

  /** An instant, counted in ticks from Go's zero `time.Time`
      (January 1, year 1, 00:00:00 UTC). Durations are tick counts. */
  datatype Time = Time(ticks: int) {
    /** `time.Time.IsZero`. */
    predicate IsZero() { ticks == 0 }

    /** `time.Time.Add`. */
    function Add(d: int): Time {
      Time(ticks + d)
    }
  }

  /** The zero `time.Time`, the value of an unset date field. */
  const ZeroTime: Time := Time(0)

  /** `time.Parse("2 January 2006", s)`: a partial function, abstract here. */
  type DateParser = string -> Option<Time>

  /** The date rule shared by every request parser: a nil or empty date string
      keeps `current`; otherwise the string is parsed and a parse failure is
      reported as `None`. */
  function OverrideDate(field: Option<string>, current: Time, parseDate: DateParser): Option<Time> {
    if field.Some? && field.value != "" then parseDate(field.value) else Some(current)
  }
}
