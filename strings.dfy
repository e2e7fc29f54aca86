/** String helpers shared by the modules. */
module Strings {
  import opened Wrappers

  /** `string.IsNullOrEmpty`, with `None` for null. */
  predicate IsNullOrEmpty(s: Option<string>) {
    s.None? || s.value == ""
  }

  /** The decimal text of `n` (`long.ToString()` for the invariant culture). */
  function DecimalString(n: int): string
    decreases if n < 0 then 1 - n else n
  {
    if n < 0 then "-" + DecimalString(-n)
    else if n < 10 then [(48 + n) as char]
    else DecimalString(n / 10) + [(48 + n % 10) as char]
  }
}
