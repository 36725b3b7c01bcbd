/** The idioms the forms share: `text.trim() || undefined`, `text || undefined`, a translated
    string with an English fallback (`t.key || 'English'`), and reading a caught exception
    (`err instanceof Error ? err.message : fallback`). */
module Forms {
  import opened Wrappers
  import opened JsText

  /** `s.trim() || undefined`: the trimmed text, or nothing when it is empty. */
  function TrimmedOrUndefined(s: string): Option<string> {
    if Trim(s) == "" then None else Some(Trim(s))
  }

  /** Blank text is sent as nothing; other text is sent trimmed, with white space at neither
      end. */
  lemma TrimmedOrUndefinedBlank(s: string)
    ensures TrimmedOrUndefined(s).None? <==> IsBlank(s)
    ensures TrimmedOrUndefined(s).Some? ==>
      var v := TrimmedOrUndefined(s).value;
      v == Trim(s) && v != "" && !IsWhiteSpace(v[0]) && !IsWhiteSpace(v[|v| - 1]) && IsInfix(v, s)
  {
    TrimEmptyIffBlank(s);
    TrimShape(s);
  }

  /** Text already trimmed and not empty is sent as it is. */
  lemma TrimmedOrUndefinedKeepsTrimmed(s: string)
    requires s != [] && !IsWhiteSpace(s[0]) && !IsWhiteSpace(s[|s| - 1])
    ensures TrimmedOrUndefined(s) == Some(s)
  {
    TrimOfTrimmed(s);
  }

  /** `s || undefined`: nothing for the empty string. */
  function OrUndefined(s: string): (r: Option<string>)
    ensures r.None? <==> s == ""
    ensures r.Some? ==> r.value == s
  {
    if s == "" then None else Some(s)
  }

  /** `s || fallback` on strings: the fallback replaces the empty string. */
  function OrElse(s: string, fallback: string): (r: string)
    ensures s != "" ==> r == s
    ensures s == "" ==> r == fallback
  {
    if s == "" then fallback else s
  }

  /** What a `catch` receives: an `Error` with its message, or any other value. */
  datatype Thrown = ErrorObject(message: string) | OtherValue

  /** `err instanceof Error ? err.message : fallback`. */
  function CaughtMessage(e: Thrown, fallback: string): (m: string)
    ensures e.ErrorObject? ==> m == e.message
    ensures e.OtherValue? ==> m == fallback
  {
    match e
    case ErrorObject(message) => message
    case OtherValue => fallback
  }

  /** How a store mutation settles: resolved, or rejected with what it throws. */
  datatype Settled = Resolved | Rejected(thrown: Thrown)
}
