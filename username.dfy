/** The username filter applied on every keystroke of the username field,
    at sign-up (features/auth/ui/register-form.tsx) and when editing a
    profile (features/profile/ui/edit-profile-modal.tsx): lowercase, then
    drop every character outside `a-z`, `0-9`, `.` and `_`. */
module Username {
  import opened Common

  /** The characters the filter's class `[a-z0-9._]` keeps. */
  predicate Allowed(c: char) {
    'a' <= c <= 'z' || '0' <= c <= '9' || c == '.' || c == '_'
  }

  function AllowedTest(): char -> bool {
    (c: char) => Allowed(c)
  }

  /** `value.toLowerCase().replace(/[^a-z0-9._]/g, "")`. */
  function Sanitize(input: string): (r: string)
    ensures |r| <= |input|
    ensures forall i :: 0 <= i < |r| ==> Allowed(r[i])
    ensures forall i :: 0 <= i < |input| && Allowed(LowerChar(input[i])) ==> LowerChar(input[i]) in r
  {
    Filter(AllowedTest(), LowerAscii(input))
  }

  /** An upper-case letter is kept, as its lower-case form; it is not
      dropped. */
  lemma UppercaseIsLowered(input: string, i: int)
    requires 0 <= i < |input| && 'A' <= input[i] <= 'Z'
    ensures (input[i] as int + 32) as char in Sanitize(input)
    ensures input[i] !in Sanitize(input)
  {
    assert LowerChar(input[i]) == (input[i] as int + 32) as char;
  }

  /** Each allowed character occurs as often as in the lower-cased input;
      every other character does not occur. */
  lemma SanitizeCounts(input: string, c: char)
    ensures multiset(Sanitize(input))[c] == if Allowed(c) then multiset(LowerAscii(input))[c] else 0
  {
    FilterMultiset(AllowedTest(), LowerAscii(input), c);
  }

  /** A string the filter keeps whole is returned unchanged. */
  lemma {:induction false} SanitizeKeepsAllowed(s: string)
    requires forall i :: 0 <= i < |s| ==> Allowed(s[i])
    ensures Sanitize(s) == s
  {
    assert LowerAscii(s) == s by {
      forall i | 0 <= i < |s| ensures LowerAscii(s)[i] == s[i] {
        assert !('A' <= s[i] <= 'Z');
      }
    }
    FilterKeepsAll(AllowedTest(), s);
  }

  /** Filtering what the filter produced changes nothing. */
  lemma SanitizeIdempotent(input: string)
    ensures Sanitize(Sanitize(input)) == Sanitize(input)
  {
    SanitizeKeepsAllowed(Sanitize(input));
  }

  /** The kept characters keep their order: the filter of a concatenation is
      the concatenation of the filters. */
  lemma SanitizeAppend(a: string, b: string)
    ensures Sanitize(a + b) == Sanitize(a) + Sanitize(b)
  {
    assert LowerAscii(a + b) == LowerAscii(a) + LowerAscii(b);
    FilterAppend(AllowedTest(), LowerAscii(a), LowerAscii(b));
  }
}
