/**
 * The form validation schemas' explicit constraints: required, minimum and
 * maximum length, equality with another field, acceptance of a checkbox and
 * one explicit URL pattern. A present value, the empty string included, is
 * checked against the length bounds; an absent (null) value only fails
 * `required`.
 */
module Schema {
  import opened JsValues

  datatype Issue = Required | TooShort(min: nat) | TooLong(max: nat) | Mismatch | NotAccepted | BadUrl

  /** A string field's first failing check, in declaration order: required, then min, then max. */
  function StringIssue(value: Option<string>, required: bool, min: Option<nat>, max: Option<nat>): (r: Option<Issue>)
    ensures value.None? ==> (r.None? <==> !required)
    ensures value.Some? ==>
      (r.None? <==>
        && (required ==> value.value != "")
        && (min.Some? ==> |value.value| >= min.value)
        && (max.Some? ==> |value.value| <= max.value))
  {
    if value.None? then (if required then Some(Required) else None)
    else if required && value.value == "" then Some(Required)
    else if min.Some? && |value.value| < min.value then Some(TooShort(min.value))
    else if max.Some? && |value.value| > max.value then Some(TooLong(max.value))
    else None
  }

  /** The form's error object with a field's check added: the field is recorded when the check failed. */
  function Put(errors: map<string, Issue>, field: string, issue: Option<Issue>): (r: map<string, Issue>)
    ensures field in r <==> field in errors || issue.Some?
    ensures issue.Some? ==> r[field] == issue.value
    ensures forall k :: k in r && k != field ==> k in errors && r[k] == errors[k]
    ensures forall k :: k in errors ==> k in r
  {
    if issue.Some? then errors[field := issue.value] else errors
  }

  /** ASCII case-insensitive comparison of one character, as the `i` flag does for ASCII letters. */
  predicate SameLetter(c: char, lower: char) {
    LowerChar(c) == lower
  }

  predicate HasPrefixIgnoringCase(s: string, prefix: string) {
    |s| >= |prefix| && forall i :: 0 <= i < |prefix| ==> SameLetter(s[i], prefix[i])
  }

  /** The characters `.` does not match. */
  predicate IsLineTerminator(c: char) {
    c == '\n' || c == '\r' || c == '\U{2028}' || c == '\U{2029}'
  }

  /** `/^https?:\/\/.+/i`: "http://" or "https://" in any case, then at least one character that is not a line terminator. */
  predicate MatchesHttpUrl(s: string) {
    (HasPrefixIgnoringCase(s, "http://") && |s| > 7 && !IsLineTerminator(s[7]))
    || (HasPrefixIgnoringCase(s, "https://") && |s| > 8 && !IsLineTerminator(s[8]))
  }

  /** The `i` flag: a value matches exactly when its lowercased form does. */
  lemma UrlIgnoresCase(s: string)
    ensures MatchesHttpUrl(s) <==> MatchesHttpUrl(ToLower(s))
  {
    var t := ToLower(s);
    forall i | 0 <= i < |s|
      ensures LowerChar(t[i]) == LowerChar(s[i])
      ensures IsLineTerminator(t[i]) <==> IsLineTerminator(s[i])
    {
    }
    assert HasPrefixIgnoringCase(s, "http://") <==> HasPrefixIgnoringCase(t, "http://");
    assert HasPrefixIgnoringCase(s, "https://") <==> HasPrefixIgnoringCase(t, "https://");
  }

  /** A matching value starts with "http" in some case and has at least one character after the scheme's "//". */
  lemma UrlHasScheme(s: string)
    ensures MatchesHttpUrl(s) ==> |s| >= 8 && ToLower(s[..4]) == "http"
  {
    if MatchesHttpUrl(s) {
      assert HasPrefixIgnoringCase(s, "http://") || HasPrefixIgnoringCase(s, "https://");
      assert forall i :: 0 <= i < 4 ==> LowerChar(s[i]) == "http"[i];
    }
  }

  /** Concrete cases of the pattern: the scheme is case-insensitive, a bare scheme and other schemes fail. */
  lemma UrlPatternExamples()
    ensures MatchesHttpUrl("HTTPS://x")
    ensures MatchesHttpUrl("http://a")
    ensures !MatchesHttpUrl("http://")
    ensures !MatchesHttpUrl("ftp://host")
  {
    assert HasPrefixIgnoringCase("HTTPS://x", "https://");
    assert HasPrefixIgnoringCase("http://a", "http://");
    assert !SameLetter("ftp://host"[0], "http://"[0]);
    assert !SameLetter("ftp://host"[0], "https://"[0]);
  }
}
