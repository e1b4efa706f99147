/** Calendar dates as they travel through the system.

    Every date the repository handles is a `YYYY-MM-DD` string.  The model
    keeps only what the code distinguishes about such a string: whether it is
    empty (falsy in Python), whether `strptime(..., '%Y-%m-%d')` accepts it,
    and if so which day it denotes.  Days are integers (a day number in the
    proleptic Gregorian calendar), so `timedelta(days = k)` is `+ k` and the
    difference `(a - b).days` is `a - b`. */
module Dates {
  /** One year as the code writes it: `timedelta(days=365)`. */
  const DAYS_PER_YEAR: int := 365

  datatype DateText =
    | Blank          // the empty string ''
    | Malformed      // a non-empty string that `strptime` rejects
    | Iso(day: int)  // a string `strptime` accepts, naming this day

  /** Python truthiness of the string: only '' is falsy. */
  predicate Present(text: DateText) {
    !text.Blank?
  }
}
