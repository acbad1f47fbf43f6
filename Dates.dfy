/**
 * Dates as the scripts use them. `datetime.fromisoformat` and `strftime`
 * are library calls the model does not implement: a parsed date is an
 * opaque `Timestamp`, and parsing and formatting are parameters.
 */
module Dates {
  import opened Wrappers
  import opened Text

  /**
   * A `datetime`: `instant` is what comparisons order by (seconds since the
   * Unix epoch, in UTC) and `year` is its calendar year.
   */
  datatype Timestamp = Timestamp(instant: int, year: int)

  /** `datetime.fromisoformat`, which either yields a date or raises. */
  type DateParser = string -> Option<Timestamp>

  /** `date.strftime("%d %B %Y")` */
  type DateFormatter = Timestamp -> string

  /** `datetime.min` at UTC (0001-01-01 00:00:00), the key that sorts undated articles. */
  const MinInstant: int := -62135596800

  /** `s.replace('Z', '+00:00')`, which lets `fromisoformat` read a UTC suffix. */
  function NormalizeZ(s: string): (r: string)
    ensures !Contains(r, "Z")
    ensures !Contains(s, "Z") ==> r == s
  {
    assert Separated("Z", "+00:00");
    ReplaceRemoves(s, "Z", "+00:00");
    assert !Contains(s, "Z") ==> Replace(s, "Z", "+00:00") == s by {
      if !Contains(s, "Z") {
        ReplaceAbsent(s, "Z", "+00:00");
      }
    }
    Replace(s, "Z", "+00:00")
  }

  /** The rewrite goes character by character: on a concatenation it rewrites each part. */
  lemma NormalizeZAppend(a: string, b: string)
    ensures NormalizeZ(a + b) == NormalizeZ(a) + NormalizeZ(b)
  {
    ReplaceCharAppend(a, b, 'Z', "+00:00");
  }

  /** Each "Z" becomes "+00:00" and every other character stays as it is. */
  lemma NormalizeZChar(c: char)
    ensures NormalizeZ([c]) == if c == 'Z' then "+00:00" else [c]
  {
  }

  /** A date ending in the UTC suffix "Z" ends in "+00:00" instead, and nothing else changes. */
  lemma NormalizeZSuffix(s: string)
    requires !Contains(s, "Z")
    ensures NormalizeZ(s + "Z") == s + "+00:00"
  {
    NormalizeZAppend(s, "Z");
    NormalizeZChar('Z');
  }
}
