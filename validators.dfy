/**
 * The validation rules the account services apply before any write.
 *
 * The ASCII username rule is concrete. Email syntax, password strength and
 * password hashing are library code whose internals are not modelled: they
 * are carried as function values in a `Policy`, constrained only by the
 * soundness of hashing and by the values the test suite witnesses.
 */
module Validators {

  /** A character the ASCII username validator admits: an ASCII letter, digit, or one of `. @ + - _`. */
  predicate UsernameChar(c: char) {
    || ('a' <= c <= 'z')
    || ('A' <= c <= 'Z')
    || ('0' <= c <= '9')
    || c == '.' || c == '@' || c == '+' || c == '-' || c == '_'
  }

  /** `validate_username`: a non-empty name made only of admitted characters. */
  predicate AsciiUsername(s: string)
    ensures AsciiUsername(s) ==> s != [] && forall i :: 0 <= i < |s| ==> s[i] as int < 128
  {
    |s| > 0 && forall i :: 0 <= i < |s| ==> UsernameChar(s[i])
  }

  /**
   * The library collaborators of the services: `validate_email`,
   * `validate_password`, the email normalization `create_user` applies
   * before storing an address, the password hasher used by `create_user`
   * and `set_password` (salt given explicitly), and `check_password`.
   */
  datatype Policy = Policy(
    emailOk: string -> bool,
    normalizeEmail: string -> string,
    passwordOk: string -> bool,
    hash: (string, string) -> string,
    verify: (string, string) -> bool)

  /** A stored hash always verifies the password it was made from, whatever the salt. */
  ghost predicate Sound(policy: Policy) {
    forall salt, password :: policy.verify(policy.hash(salt, password), password)
  }

  /** What the registration tests witness about the two library validators. */
  predicate Witnessed(policy: Policy) {
    && !policy.emailOk("test")
    && policy.emailOk("test@foo.ru")
    && policy.normalizeEmail("test@foo.ru") == "test@foo.ru"
    && !policy.passwordOk("1234")
    && policy.passwordOk("Passw0rd33")
  }

  /** A Cyrillic name is not an ASCII username; the names used by the tests are. */
  lemma TestUsernames()
    ensures !AsciiUsername("Алексей")
    ensures AsciiUsername("test") && AsciiUsername("test_user")
  {
    assert !UsernameChar("Алексей"[0]);
  }
}
