/**
 * The username check of src/utils/validation-utils.ts: at most 16 characters,
 * and the whole name matching `/^[a-zA-Z0-9_-]+$/`.
 */
module ValidationUtils {
  import opened Ascii

  const MAX_USERNAME_LENGTH: nat := 16

  /** The character class `[a-zA-Z0-9_-]`. */
  predicate IsUsernameChar(c: char) {
    'a' <= c <= 'z' || 'A' <= c <= 'Z' || '0' <= c <= '9' || c == '_' || c == '-'
  }

  /** `/^[a-zA-Z0-9_-]+$/.test(s)`: one or more characters, each in the class. */
  function MatchesUsernamePattern(s: string): (m: bool)
    ensures m <==> |s| >= 1 && forall i :: 0 <= i < |s| ==> IsUsernameChar(s[i])
  {
    if s == [] then false
    else IsUsernameChar(s[0]) && (|s| == 1 || MatchesUsernamePattern(s[1..]))
  }

  /** `invalidMinecraftUsername`: true when the name is too long or does not match the pattern. */
  function InvalidMinecraftUsername(username: string): (invalid: bool)
    ensures invalid <==> |username| > MAX_USERNAME_LENGTH || |username| == 0
                         || exists i :: 0 <= i < |username| && !IsUsernameChar(username[i])
  {
    if |username| > MAX_USERNAME_LENGTH then true
    else !MatchesUsernamePattern(username)
  }

  /** A name longer than 16 characters is invalid, whatever its characters. */
  lemma TooLongIsInvalid(username: string)
    requires |username| > 16
    ensures InvalidMinecraftUsername(username)
  {
  }

  /** The empty name is invalid: the class must match at least once. */
  lemma EmptyIsInvalid()
    ensures InvalidMinecraftUsername("")
  {
  }

  /** One character outside the class makes a name invalid. */
  lemma ForeignCharIsInvalid(username: string, i: nat)
    requires i < |username| && !IsUsernameChar(username[i])
    ensures InvalidMinecraftUsername(username)
  {
  }

  /** A non-empty name of at most 16 class characters is valid. */
  lemma WellFormedIsValid(username: string)
    requires 1 <= |username| <= 16
    requires forall i :: 0 <= i < |username| ==> IsUsernameChar(username[i])
    ensures !InvalidMinecraftUsername(username)
  {
  }

  /** Changing the case of letters never changes the verdict. */
  lemma CaseDoesNotMatter(a: string, b: string)
    requires SameIgnoringCase(a, b)
    ensures InvalidMinecraftUsername(a) == InvalidMinecraftUsername(b)
  {
    assert |a| == |Lower(a)| == |Lower(b)| == |b|;
    forall i | 0 <= i < |a|
      ensures IsUsernameChar(a[i]) == IsUsernameChar(b[i])
    {
      assert LowerChar(a[i]) == Lower(a)[i] == Lower(b)[i] == LowerChar(b[i]);
    }
  }
}
