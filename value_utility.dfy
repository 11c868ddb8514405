/**
 * ValueUtility: empty or whitespace-only strings read as "unset", and the
 * rule that an echoed modification timestamp reads as "never modified".
 */
module ValueUtility {
  import opened Wrappers
  import opened Values

  /** A character String.trim removes: every code point up to U+0020. */
  predicate IsTrimmable(c: char) {
    c <= ' '
  }

  /** A string String.trim reduces to the empty string. */
  predicate IsBlank(s: string) {
    forall i :: 0 <= i < |s| ==> IsTrimmable(s[i])
  }

  /** The leading trimmable characters removed. */
  function TrimLeading(s: string): (r: string)
    ensures |r| <= |s| && r == s[|s| - |r|..]
    ensures r == [] || !IsTrimmable(r[0])
    ensures forall i :: 0 <= i < |s| - |r| ==> IsTrimmable(s[i])
  {
    if |s| > 0 && IsTrimmable(s[0]) then TrimLeading(s[1..]) else s
  }

  /** The trailing trimmable characters removed. */
  function TrimTrailing(s: string): (r: string)
    ensures |r| <= |s| && r == s[..|r|]
    ensures r == [] || !IsTrimmable(r[|r| - 1])
    ensures forall i :: |r| <= i < |s| ==> IsTrimmable(s[i])
  {
    if |s| > 0 && IsTrimmable(s[|s| - 1]) then TrimTrailing(s[..|s| - 1]) else s
  }

  /** String.trim: both ends stripped of trimmable characters. */
  function Trim(s: string): string {
    TrimTrailing(TrimLeading(s))
  }

  /** trim() yields the empty string exactly for blank strings. */
  lemma TrimIsEmptyIffBlank(s: string)
    ensures Trim(s) == [] <==> IsBlank(s)
  {
    var t := TrimLeading(s);
    if Trim(s) == [] {
      forall i | 0 <= i < |s| ensures IsTrimmable(s[i]) {
        if i >= |s| - |t| {
          assert s[i] == t[i - (|s| - |t|)];
        }
      }
    }
  }

  /**
   * toOptionalString: null, empty and whitespace-only strings read as
   * unset; every other string is kept exactly as given (not trimmed).
   */
  function ToOptionalString(value: Option<string>): (r: Option<string>)
    ensures r.None? <==> (value.None? || IsBlank(value.value))
    ensures r.Some? ==> r == value
  {
    if value.None? then None
    else
      TrimIsEmptyIffBlank(value.value);
      if Trim(value.value) == [] then None else value
  }

  /** Normalising twice gives what normalising once gave. */
  lemma ToOptionalStringIdempotent(value: Option<string>)
    ensures ToOptionalString(ToOptionalString(value)) == ToOptionalString(value)
  {
  }

  /**
   * The collapse AbstractTimestampedResource applies to its modification
   * timestamp: a modification equal to the creation reads as none. Assumed:
   * the helper's body is not part of this model, only its call site is.
   */
  function ToOptionalModificationTimestamp(creation: Instant, modification: Option<Instant>): (r: Option<Instant>)
    ensures r.None? <==> (modification.None? || modification.value == creation)
    ensures r.Some? ==> r == modification
    ensures r != Some(creation)
  {
    if modification.None? || modification.value == creation then None else modification
  }
}
