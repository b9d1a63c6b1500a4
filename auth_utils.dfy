/** utils/auth.ts: the credential checks (password strength, user name, e-mail), the
    removal of the password hash from a user record, and token expiry dates. Hashing,
    token signing and uuid generation are library calls and are not modelled. */
module AuthUtils {
  import opened Common
  import opened Strings
  import opened JsValues
  import Email

  /** isValidEmail, the same regular expression as the form helpers'. */
  predicate IsValidEmail(email: string) {
    Email.IsValidEmail(email)
  }

  /** `/[lo-hi]/.test(s)`. */
  predicate HasCharIn(s: string, lo: char, hi: char) {
    exists i :: 0 <= i < |s| && lo <= s[i] <= hi
  }

  /** The four requirements a password can miss, in the order they are checked. */
  datatype PasswordProblem = TooShort | NoUppercase | NoLowercase | NoDigit {
    function Message(): string {
      match this
      case TooShort => "Le mot de passe doit contenir au moins 8 caractères"
      case NoUppercase => "Le mot de passe doit contenir au moins une majuscule"
      case NoLowercase => "Le mot de passe doit contenir au moins une minuscule"
      case NoDigit => "Le mot de passe doit contenir au moins un chiffre"
    }
  }

  /** The position of a check in the order the source runs them. */
  function Rank(p: PasswordProblem): nat {
    match p
    case TooShort => 0
    case NoUppercase => 1
    case NoLowercase => 2
    case NoDigit => 3
  }

  /** The problems reported for the given outcomes of the four checks. */
  function PasswordProblemsOf(short: bool, noUpper: bool, noLower: bool, noDigit: bool): seq<PasswordProblem> {
    (if short then [TooShort] else []) + (if noUpper then [NoUppercase] else [])
    + (if noLower then [NoLowercase] else []) + (if noDigit then [NoDigit] else [])
  }

  /** The problems of a password. */
  function PasswordProblems(password: string): seq<PasswordProblem> {
    PasswordProblemsOf(|password| < 8, !HasCharIn(password, 'A', 'Z'), !HasCharIn(password, 'a', 'z'),
                       !HasCharIn(password, '0', '9'))
  }

  lemma PasswordProblemsOfSpec(short: bool, noUpper: bool, noLower: bool, noDigit: bool)
    ensures var r := PasswordProblemsOf(short, noUpper, noLower, noDigit);
            (TooShort in r <==> short) && (NoUppercase in r <==> noUpper)
            && (NoLowercase in r <==> noLower) && (NoDigit in r <==> noDigit)
            && |r| <= 4
            && (forall i, j :: 0 <= i < j < |r| ==> Rank(r[i]) < Rank(r[j]))
  {
    var r := PasswordProblemsOf(short, noUpper, noLower, noDigit);
    PasswordRanksIncrease(short, noUpper, noLower, noDigit);
  }

  lemma PasswordRanksIncrease(short: bool, noUpper: bool, noLower: bool, noDigit: bool)
    ensures var r := PasswordProblemsOf(short, noUpper, noLower, noDigit);
            forall i, j :: 0 <= i < j < |r| ==> Rank(r[i]) < Rank(r[j])
  {
    var a := if short then [TooShort] else [];
    var b := a + (if noUpper then [NoUppercase] else []);
    var c := b + (if noLower then [NoLowercase] else []);
    assert forall i :: 0 <= i < |b| ==> Rank(b[i]) <= 1;
    assert forall i :: 0 <= i < |c| ==> Rank(c[i]) <= 2;
  }

  /** Each problem is reported exactly when its requirement is missed, in checking
      order (so each at most once, and at most four in all). */
  lemma PasswordProblemsSpec(password: string)
    ensures var r := PasswordProblems(password);
            (TooShort in r <==> |password| < 8)
            && (NoUppercase in r <==> !HasCharIn(password, 'A', 'Z'))
            && (NoLowercase in r <==> !HasCharIn(password, 'a', 'z'))
            && (NoDigit in r <==> !HasCharIn(password, '0', '9'))
            && |r| <= 4
            && (forall i, j :: 0 <= i < j < |r| ==> Rank(r[i]) < Rank(r[j]))
  {
    PasswordProblemsOfSpec(|password| < 8, !HasCharIn(password, 'A', 'Z'), !HasCharIn(password, 'a', 'z'),
                           !HasCharIn(password, '0', '9'));
  }

  function PasswordMessage(p: PasswordProblem): string {
    p.Message()
  }

  /** isValidPassword. */
  method IsValidPassword(password: string) returns (valid: bool, errors: seq<string>)
    ensures errors == MapSeq(PasswordProblems(password), PasswordMessage)
    ensures valid <==> errors == []
  {
    ghost var problems: seq<PasswordProblem> := [];
    ghost var short, noUpper, noLower := |password| < 8, !HasCharIn(password, 'A', 'Z'), !HasCharIn(password, 'a', 'z');
    errors := [];
    if |password| < 8 {
      MapSeqSnoc(problems, TooShort, PasswordMessage);
      problems, errors := problems + [TooShort], errors + [TooShort.Message()];
    }
    if !HasCharIn(password, 'A', 'Z') {
      MapSeqSnoc(problems, NoUppercase, PasswordMessage);
      problems, errors := problems + [NoUppercase], errors + [NoUppercase.Message()];
    }
    assert problems == PasswordProblemsOf(short, noUpper, false, false);
    if !HasCharIn(password, 'a', 'z') {
      MapSeqSnoc(problems, NoLowercase, PasswordMessage);
      problems, errors := problems + [NoLowercase], errors + [NoLowercase.Message()];
    }
    assert problems == PasswordProblemsOf(short, noUpper, noLower, false);
    if !HasCharIn(password, '0', '9') {
      MapSeqSnoc(problems, NoDigit, PasswordMessage);
      problems, errors := problems + [NoDigit], errors + [NoDigit.Message()];
    }
    assert problems == PasswordProblems(password);
    valid := |errors| == 0;
  }

  lemma StrongPasswordIsValid()
    ensures PasswordProblems("Abcdefg1") == []
  {
    var s := "Abcdefg1";
    assert s[0] == 'A' && s[1] == 'b' && s[7] == '1';
  }

  /** A character of `[a-zA-Z0-9_-]`. */
  predicate UsernameChar(c: char) {
    'a' <= c <= 'z' || 'A' <= c <= 'Z' || '0' <= c <= '9' || c == '_' || c == '-'
  }

  /** isValidUsername: `/^[a-zA-Z0-9_-]{3,20}$/`. */
  predicate IsValidUsername(username: string) {
    3 <= |username| <= 20 && forall i :: 0 <= i < |username| ==> UsernameChar(username[i])
  }

  /** A valid user name has no '@', so it can never pass for an e-mail address. */
  lemma UsernameIsNeverAnEmail(s: string)
    requires IsValidUsername(s)
    ensures !IsValidEmail(s)
  {
    assert IndexOf(s, '@') == -1;
  }

  lemma UsernameExamples()
    ensures IsValidUsername("jean_dupont-2")
    ensures !IsValidUsername("jo")
    ensures !IsValidUsername("jean dupont")
  {
    assert !UsernameChar("jean dupont"[4]);
  }

  /** sanitizeUserData; `None` is a null or undefined user, whose destructuring throws. */
  function SanitizeUserData(user: Option<map<string, Value>>): (r: Option<map<string, Value>>)
    ensures r.None? <==> user.None?
    ensures r.Some? ==> "password" !in r.value && r.value.Keys == user.value.Keys - {"password"}
    ensures r.Some? ==> forall k :: k in r.value ==> r.value[k] == user.value[k]
  {
    match user
    case None => None
    case Some(m) => Some(m - {"password"})
  }

  /** Sanitizing twice is sanitizing once; a record without a password is unchanged. */
  lemma SanitizeIdempotent(user: map<string, Value>)
    ensures SanitizeUserData(SanitizeUserData(Some(user))) == SanitizeUserData(Some(user))
    ensures "password" !in user ==> SanitizeUserData(Some(user)) == Some(user)
  {
    var r := SanitizeUserData(Some(user)).value;
    assert r - {"password"} == r;
    if "password" !in user {
      assert user - {"password"} == user;
    }
  }

  const MillisPerMinute := 60 * 1000

  /** generateExpirationDate, in milliseconds since the epoch; `now` is the clock and
      `minutes` the optional argument, 60 by default. */
  function GenerateExpirationDate(now: int, minutes: Option<int>): (r: int)
    ensures minutes.None? ==> r == now + 3600000
    ensures minutes.Some? ==> r == now + minutes.value * 60000
  {
    now + minutes.GetOr(60) * MillisPerMinute
  }

  /** isTokenExpired: the current time is strictly after the expiration date. */
  predicate IsTokenExpired(now: int, expiration: int) {
    now > expiration
  }

  /** A token is not expired when it is issued with a non-negative duration, nor at
      the very end of it; it is expired one millisecond later. */
  lemma ExpiryWindow(issued: int, minutes: Option<int>, now: int)
    requires minutes.GetOr(60) >= 0
    ensures !IsTokenExpired(issued, GenerateExpirationDate(issued, minutes))
    ensures IsTokenExpired(now, GenerateExpirationDate(issued, minutes))
            <==> now > issued + minutes.GetOr(60) * 60000
  {
  }
}
