/** Object names: the text form of a random UUID, and the RFC 1123 label rule
    the Kubernetes API applies to Job names. */
module UuidText {

  predicate IsLowerHex(c: char)
  {
    '0' <= c <= '9' || 'a' <= c <= 'f'
  }

  /** The form `uuid.UUID.String()` produces: 36 characters, lower-case hex
      digits in groups of 8, 4, 4, 4 and 12 separated by dashes. */
  predicate IsUuidText(s: string)
  {
    && |s| == 36
    && forall i | 0 <= i < 36 :: if i in {8, 13, 18, 23} then s[i] == '-' else IsLowerHex(s[i])
  }

  predicate IsLabelChar(c: char)
  {
    'a' <= c <= 'z' || '0' <= c <= '9' || c == '-'
  }

  predicate IsAlphanumeric(c: char)
  {
    'a' <= c <= 'z' || '0' <= c <= '9'
  }

  /** An RFC 1123 label: 1 to 63 lower-case alphanumerics or dashes, beginning
      and ending with an alphanumeric. */
  predicate IsDnsLabel(s: string)
  {
    && 0 < |s| <= 63
    && (forall i | 0 <= i < |s| :: IsLabelChar(s[i]))
    && IsAlphanumeric(s[0])
    && IsAlphanumeric(s[|s| - 1])
  }

  /** A UUID's text is itself a valid object name. */
  lemma UuidIsDnsLabel(s: string)
    requires IsUuidText(s)
    ensures IsDnsLabel(s)
  {
    forall i | 0 <= i < |s| ensures IsLabelChar(s[i]) {
      if i in {8, 13, 18, 23} { } else { }
    }
    assert IsLowerHex(s[0]) && IsLowerHex(s[35]);
  }
}
