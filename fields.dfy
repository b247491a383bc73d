/**
 * The checks and normalisations the Author record's six setters apply to
 * their argument, as pure functions (php/Classes/Author.php, shared by the
 * near-duplicate class in php/Classes/Foo.php). Each Check function returns
 * the value the setter stores, or what the setter throws; the setters in
 * AuthorRecord and FooRecord are proved against them.
 */
module Fields {
  import opened PhpStrings
  import opened Runtime

  const TOKEN_LENGTH := 32
  const AVATAR_URL_MAX := 255
  const EMAIL_MAX := 128
  // The check is against 96; the comment above it says 97 and the
  // doc-comment of setAuthorHash says 128.
  const HASH_LENGTH := 96
  const USERNAME_MAX := 32

  /** "argon2i", the algorithm name password_get_info reports for an Argon2i hash. */
  const ARGON2I: PhpString := [97, 114, 103, 111, 110, 50, 105]

  const TOKEN_NOT_HEX := "Author Activation is Not Valid"
  const TOKEN_WRONG_LENGTH := "Author Activation Token Must Be 32 Characters"
  const AVATAR_URL_TOO_LONG := "The Avatar URL can only be a max of 255 characters."
  const EMAIL_INVALID := "Author Email is empty or not secure."
  const EMAIL_TOO_LONG := "Author Email Can Be a Max of 128 Characters in Length"
  const HASH_EMPTY := "Profile password hash is invalid or empty."
  const HASH_NOT_ARGON2I := "Profile hash is not a valid hash."
  const HASH_WRONG_LENGTH := "Profile hash must be 96 characters."
  const USERNAME_TOO_LONG := "Author Username Can be a Max of 32 Characters in Length."

  // ------------------------------------------------------------------ id

  /**
   * setAuthorId: the UUID the validator returns is stored; whatever it throws
   * is rethrown as a new object of the same class with the same message.
   */
  function CheckId(lib: Library, newAuthorId: IdInput): (r: Result<Uuid, Thrown>)
    ensures r.Success? <==> lib.validateUuid(newAuthorId).Success?
    ensures r.Success? ==> r.value == lib.validateUuid(newAuthorId).value
    ensures r.Failure? ==>
              (r.error.cls == lib.validateUuid(newAuthorId).error.cls
               && r.error.message == lib.validateUuid(newAuthorId).error.message)
  {
    match lib.validateUuid(newAuthorId)
    case Success(uuid) => Success(uuid)
    case Failure(e) => Failure(Thrown(e.cls, e.message))
  }

  // ---------------------------------------------------- activation token

  /** strtolower(trim(x)). */
  function NormalizeToken(x: PhpString): (t: PhpString)
    ensures |t| <= |x|
    ensures forall i :: 0 <= i < |t| ==> !IsUpperAscii(t[i])
  {
    ToLower(Trim(x))
  }

  /** What setAuthorActivationToken stores: exactly 32 lower-case hexadecimal digits. */
  predicate IsStoredToken(t: PhpString) {
    |t| == TOKEN_LENGTH && forall i :: 0 <= i < |t| ==> IsLowerXDigit(t[i])
  }

  /**
   * setAuthorActivationToken: accepts exactly when the normalised token is 32
   * lower-case hex digits and stores that normalised token. A normalised token
   * that is empty or holds a non-hex byte is refused first, whatever its
   * length; a hex token of another length is refused second. Both throw
   * RangeException.
   */
  function CheckActivationToken(x: PhpString): (r: Result<PhpString, Thrown>)
    ensures r.Success? <==> IsStoredToken(NormalizeToken(x))
    ensures r.Success? ==> r.value == NormalizeToken(x)
    ensures !CtypeXdigit(NormalizeToken(x)) ==> r == Failure(Thrown(RangeException, TOKEN_NOT_HEX))
    ensures CtypeXdigit(NormalizeToken(x)) && |NormalizeToken(x)| != TOKEN_LENGTH ==>
              r == Failure(Thrown(RangeException, TOKEN_WRONG_LENGTH))
  {
    var n := NormalizeToken(x);
    if !CtypeXdigit(n) then Failure(Thrown(RangeException, TOKEN_NOT_HEX))
    else if |n| != TOKEN_LENGTH then Failure(Thrown(RangeException, TOKEN_WRONG_LENGTH))
    else Success(n)
  }

  /** A stored token is accepted again unchanged. */
  lemma StoredTokenReaccepted(t: PhpString)
    requires IsStoredToken(t)
    ensures CheckActivationToken(t) == Success(t)
  {
    assert !IsTrimmable(t[0]) && !IsTrimmable(t[|t| - 1]);
    TrimOfTrimmed(t);
    assert ToLower(t) == t;
  }

  /**
   * Any 32 hexadecimal digits, in upper or lower case, are accepted and stored
   * lower-cased.
   */
  lemma HexTokenAccepted(x: PhpString)
    requires |x| == TOKEN_LENGTH && forall i :: 0 <= i < |x| ==> IsXDigit(x[i])
    ensures CheckActivationToken(x) == Success(ToLower(x))
  {
    assert !IsTrimmable(x[0]) && !IsTrimmable(x[|x| - 1]);
    TrimOfTrimmed(x);
  }

  // ---------------------------------------------------------- avatar URL

  /** setAuthorAvatarUrl: at most 255 bytes, stored verbatim (no trimming). */
  function CheckAvatarUrl(x: PhpString): (r: Result<PhpString, Thrown>)
    ensures r.Success? <==> |x| <= AVATAR_URL_MAX
    ensures r.Success? ==> r.value == x
    ensures r.Failure? ==> r.error == Thrown(RangeException, AVATAR_URL_TOO_LONG)
  {
    if |x| > AVATAR_URL_MAX then Failure(Thrown(RangeException, AVATAR_URL_TOO_LONG))
    else Success(x)
  }

  // --------------------------------------------------------------- email

  /** What setAuthorEmail stores: trimmed, accepted by the e-mail filter, at most 128 bytes. */
  predicate IsStoredEmail(lib: Library, e: PhpString) {
    IsTrimmed(e) && lib.isValidEmail(e) && |e| <= EMAIL_MAX
  }

  /**
   * setAuthorEmail as documented: the trimmed address is stored when the
   * e-mail filter accepts it and it is at most 128 bytes; an address the
   * filter rejects throws InvalidArgumentException, checked first, and a
   * longer one throws RangeException. The code as written differs; see
   * EmailAsWritten.
   */
  function CheckEmail(lib: Library, x: PhpString): (r: Result<PhpString, Thrown>)
    ensures r.Success? <==> lib.isValidEmail(Trim(x)) && |Trim(x)| <= EMAIL_MAX
    ensures r.Success? ==> r.value == Trim(x) && IsStoredEmail(lib, r.value)
    ensures !lib.isValidEmail(Trim(x)) ==> r == Failure(Thrown(InvalidArgumentException, EMAIL_INVALID))
    ensures lib.isValidEmail(Trim(x)) && |Trim(x)| > EMAIL_MAX ==>
              r == Failure(Thrown(RangeException, EMAIL_TOO_LONG))
  {
    var e := Trim(x);
    if !lib.isValidEmail(e) then Failure(Thrown(InvalidArgumentException, EMAIL_INVALID))
    else if |e| > EMAIL_MAX then Failure(Thrown(RangeException, EMAIL_TOO_LONG))
    else Success(e)
  }

  /** A stored e-mail address is accepted again unchanged. */
  lemma StoredEmailReaccepted(lib: Library, e: PhpString)
    requires IsStoredEmail(lib, e)
    ensures CheckEmail(lib, e) == Success(e)
  {
    TrimOfTrimmed(e);
  }

  /** What filter_var(s, FILTER_VALIDATE_EMAIL) returns: s itself, or false. */
  datatype EmailFilterResult = EmailString(s: PhpString) | EmailFalse

  /**
   * The message of the \Error raised by `new RangeException(...)` at
   * php/Classes/Author.php:195: the name is unqualified inside the namespace
   * RyanTorske\ObjectOrientedPhase1, where no such class exists.
   */
  const RANGE_EXCEPTION_NOT_FOUND := "Class \"RyanTorske\\ObjectOrientedPhase1\\RangeException\" not found"

  /**
   * setAuthorEmail as the code is written: the guard compares filter_var's
   * result with null, which it never is, so an address the filter rejects
   * goes on as false; strlen(false) is 0, and false is what gets stored. An
   * accepted address longer than 128 bytes fails, but with an \Error about
   * the undefined class rather than a RangeException.
   */
  function EmailAsWritten(lib: Library, x: PhpString): (r: Result<EmailFilterResult, Thrown>)
    ensures r.Failure? <==> lib.isValidEmail(Trim(x)) && |Trim(x)| > EMAIL_MAX
    ensures r.Failure? ==> r.error == Thrown(PhpError, RANGE_EXCEPTION_NOT_FOUND)
    ensures r.Success? ==> (r.value == EmailFalse <==> !lib.isValidEmail(Trim(x)))
  {
    var e := Trim(x);
    var filtered := if lib.isValidEmail(e) then EmailString(e) else EmailFalse;
    var length := if filtered.EmailString? then |filtered.s| else 0;
    if length > EMAIL_MAX then Failure(Thrown(PhpError, RANGE_EXCEPTION_NOT_FOUND))
    else Success(filtered)
  }

  /**
   * The discrepancy: an address the e-mail filter rejects (say "not-an-email")
   * is refused by the documented contract but accepted by the code, which
   * stores false in its place.
   */
  lemma RejectedEmailAcceptedAsWritten(lib: Library, x: PhpString)
    requires !lib.isValidEmail(Trim(x))
    ensures CheckEmail(lib, x).Failure?
    ensures EmailAsWritten(lib, x) == Success(EmailFalse)
  {
  }

  /**
   * The second discrepancy: an accepted address longer than 128 bytes is
   * refused by both, but the code throws an \Error where the documented
   * contract throws RangeException.
   */
  lemma LongEmailThrowsErrorAsWritten(lib: Library, x: PhpString)
    requires lib.isValidEmail(Trim(x)) && |Trim(x)| > EMAIL_MAX
    ensures CheckEmail(lib, x) == Failure(Thrown(RangeException, EMAIL_TOO_LONG))
    ensures EmailAsWritten(lib, x) == Failure(Thrown(PhpError, RANGE_EXCEPTION_NOT_FOUND))
  {
  }

  /** On addresses the filter accepts, the code and the documented contract store the same value. */
  lemma EmailAsWrittenAgreesOnValid(lib: Library, x: PhpString)
    requires lib.isValidEmail(Trim(x))
    ensures CheckEmail(lib, x).Success? <==> EmailAsWritten(lib, x).Success?
    ensures CheckEmail(lib, x).Success? ==> EmailAsWritten(lib, x).value == EmailString(CheckEmail(lib, x).value)
  {
  }

  // ---------------------------------------------------------------- hash

  /** What setAuthorHash stores: trimmed, an argon2i hash, exactly 96 bytes. */
  predicate IsStoredHash(lib: Library, h: PhpString) {
    IsTrimmed(h) && lib.hashAlgoName(h) == ARGON2I && |h| == HASH_LENGTH
  }

  /**
   * setAuthorHash: the trimmed hash is stored when password_get_info names it
   * argon2i and it is exactly 96 bytes. Refused, in this order: a hash empty()
   * holds for ("" or "0") with InvalidArgumentException, a hash of another
   * algorithm with InvalidArgumentException, a length other than 96 with
   * RangeException.
   */
  function CheckHash(lib: Library, x: PhpString): (r: Result<PhpString, Thrown>)
    ensures r.Success? <==> lib.hashAlgoName(Trim(x)) == ARGON2I && |Trim(x)| == HASH_LENGTH
    ensures r.Success? ==> r.value == Trim(x) && IsStoredHash(lib, r.value)
    ensures IsPhpEmpty(Trim(x)) ==> r == Failure(Thrown(InvalidArgumentException, HASH_EMPTY))
    ensures !IsPhpEmpty(Trim(x)) && lib.hashAlgoName(Trim(x)) != ARGON2I ==>
              r == Failure(Thrown(InvalidArgumentException, HASH_NOT_ARGON2I))
    ensures !IsPhpEmpty(Trim(x)) && lib.hashAlgoName(Trim(x)) == ARGON2I && |Trim(x)| != HASH_LENGTH ==>
              r == Failure(Thrown(RangeException, HASH_WRONG_LENGTH))
  {
    var h := Trim(x);
    if IsPhpEmpty(h) then Failure(Thrown(InvalidArgumentException, HASH_EMPTY))
    else if lib.hashAlgoName(h) != ARGON2I then Failure(Thrown(InvalidArgumentException, HASH_NOT_ARGON2I))
    else if |h| != HASH_LENGTH then Failure(Thrown(RangeException, HASH_WRONG_LENGTH))
    else Success(h)
  }

  /** A stored hash is accepted again unchanged. */
  lemma StoredHashReaccepted(lib: Library, h: PhpString)
    requires IsStoredHash(lib, h)
    ensures CheckHash(lib, h) == Success(h)
  {
    TrimOfTrimmed(h);
  }

  // ------------------------------------------------------------ username

  /** setAuthorUsername: at most 32 bytes, stored verbatim; the empty name is accepted. */
  function CheckUsername(x: PhpString): (r: Result<PhpString, Thrown>)
    ensures r.Success? <==> |x| <= USERNAME_MAX
    ensures r.Success? ==> r.value == x
    ensures r.Failure? ==> r.error == Thrown(RangeException, USERNAME_TOO_LONG)
  {
    if |x| > USERNAME_MAX then Failure(Thrown(RangeException, USERNAME_TOO_LONG))
    else Success(x)
  }
}
