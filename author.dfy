/**
 * The Author record of php/Classes/Author.php: six private fields, a guarded
 * setter and a getter for each, the all-or-nothing constructor, and
 * jsonSerialize. Each setter is proved against its Check function in module
 * Fields.
 */
module AuthorRecord {
  import opened PhpStrings
  import opened Runtime
  import opened Fields

  /** The six validated values of a constructed record. */
  datatype AuthorFields = AuthorFields(
    id: Uuid,
    activationToken: PhpString,
    avatarUrl: PhpString,
    email: PhpString,
    hash: PhpString,
    username: PhpString)

  /** What every field holds once its setter has accepted a value. */
  predicate IsStoredRecord(lib: Library, f: AuthorFields) {
    && IsStoredToken(f.activationToken)
    && |f.avatarUrl| <= AVATAR_URL_MAX
    && IsStoredEmail(lib, f.email)
    && IsStoredHash(lib, f.hash)
    && |f.username| <= USERNAME_MAX
  }

  /** What each setter does with its argument, in the order the constructor calls them. */
  function SetterOutcomes(lib: Library, newAuthorId: IdInput, newAuthorActivationToken: PhpString,
                          newAuthorAvatarUrl: PhpString, newAuthorEmail: PhpString,
                          newAuthorHash: PhpString, newAuthorUsername: PhpString): (os: seq<Outcome<Thrown>>)
    ensures |os| == 6
  {
    [ CheckId(lib, newAuthorId).ToOutcome(),
      CheckActivationToken(newAuthorActivationToken).ToOutcome(),
      CheckAvatarUrl(newAuthorAvatarUrl).ToOutcome(),
      CheckEmail(lib, newAuthorEmail).ToOutcome(),
      CheckHash(lib, newAuthorHash).ToOutcome(),
      CheckUsername(newAuthorUsername).ToOutcome() ]
  }

  /** The error of the first failing outcome, if any. */
  function FirstFailure(os: seq<Outcome<Thrown>>): (e: Option<Thrown>)
    ensures e.None? <==> forall i :: 0 <= i < |os| ==> os[i].Pass?
  {
    if os == [] then None
    else if os[0].Fail? then Some(os[0].error)
    else FirstFailure(os[1..])
  }

  /** Outcomes that pass do not decide the first failure. */
  lemma {:induction false} FirstFailureAfterPasses(os: seq<Outcome<Thrown>>, k: nat)
    requires k <= |os|
    requires forall i :: 0 <= i < k ==> os[i].Pass?
    ensures FirstFailure(os) == FirstFailure(os[k..])
  {
    if k > 0 {
      assert os[1..][k - 1..] == os[k..];
      FirstFailureAfterPasses(os[1..], k - 1);
    }
  }

  /** The first failing outcome decides the first failure. */
  lemma FirstFailureAt(os: seq<Outcome<Thrown>>, k: nat)
    requires k < |os| && os[k].Fail?
    requires forall i :: 0 <= i < k ==> os[i].Pass?
    ensures FirstFailure(os) == Some(os[k].error)
  {
    FirstFailureAfterPasses(os, k);
    assert os[k..][0] == os[k];
  }

  /**
   * The setters' results combined in the constructor's order: the record when
   * all six succeed, otherwise the error of the first that fails.
   */
  function Assemble(id: Result<Uuid, Thrown>, token: Result<PhpString, Thrown>,
                    avatarUrl: Result<PhpString, Thrown>, email: Result<PhpString, Thrown>,
                    hash: Result<PhpString, Thrown>, username: Result<PhpString, Thrown>): (r: Result<AuthorFields, Thrown>)
    ensures r.Success? <==> id.Success? && token.Success? && avatarUrl.Success?
                            && email.Success? && hash.Success? && username.Success?
    ensures r.Success? ==> r.value == AuthorFields(id.value, token.value, avatarUrl.value,
                                                   email.value, hash.value, username.value)
  {
    var i :- id;
    var t :- token;
    var a :- avatarUrl;
    var e :- email;
    var h :- hash;
    var u :- username;
    Success(AuthorFields(i, t, a, e, h, u))
  }

  /** Assemble fails exactly when some result is a failure, and then with the first one's error. */
  lemma AssembleFailsWithFirstError(id: Result<Uuid, Thrown>, token: Result<PhpString, Thrown>,
                                    avatarUrl: Result<PhpString, Thrown>, email: Result<PhpString, Thrown>,
                                    hash: Result<PhpString, Thrown>, username: Result<PhpString, Thrown>)
    ensures var r := Assemble(id, token, avatarUrl, email, hash, username);
            var first := FirstFailure([id.ToOutcome(), token.ToOutcome(), avatarUrl.ToOutcome(),
                                       email.ToOutcome(), hash.ToOutcome(), username.ToOutcome()]);
            (r.Failure? <==> first.Some?) && (r.Failure? ==> r.error == first.value)
  {
    var os := [id.ToOutcome(), token.ToOutcome(), avatarUrl.ToOutcome(),
               email.ToOutcome(), hash.ToOutcome(), username.ToOutcome()];
    if id.Failure? {
      FirstFailureAt(os, 0);
    } else if token.Failure? {
      FirstFailureAt(os, 1);
    } else if avatarUrl.Failure? {
      FirstFailureAt(os, 2);
    } else if email.Failure? {
      FirstFailureAt(os, 3);
    } else if hash.Failure? {
      FirstFailureAt(os, 4);
    } else if username.Failure? {
      FirstFailureAt(os, 5);
    }
  }

  /**
   * __construct: the setters run in the order id, activation token, avatar
   * URL, e-mail, hash, username; the first one that throws ends the
   * construction. Its catch clause names the unqualified
   * InvalidArgumentException, a class of the record's own namespace that does
   * not exist, so it never matches and the setter's exception reaches the
   * caller unchanged. A constructed record holds what each setter stores.
   */
  function Construct(lib: Library, newAuthorId: IdInput, newAuthorActivationToken: PhpString,
                     newAuthorAvatarUrl: PhpString, newAuthorEmail: PhpString,
                     newAuthorHash: PhpString, newAuthorUsername: PhpString): (r: Result<AuthorFields, Thrown>)
    ensures r.Success? <==>
              && CheckId(lib, newAuthorId).Success?
              && CheckActivationToken(newAuthorActivationToken).Success?
              && CheckAvatarUrl(newAuthorAvatarUrl).Success?
              && CheckEmail(lib, newAuthorEmail).Success?
              && CheckHash(lib, newAuthorHash).Success?
              && CheckUsername(newAuthorUsername).Success?
    ensures r.Success? ==> IsStoredRecord(lib, r.value)
    ensures r.Success? ==>
              r.value == AuthorFields(lib.validateUuid(newAuthorId).value,
                                      NormalizeToken(newAuthorActivationToken),
                                      newAuthorAvatarUrl,
                                      Trim(newAuthorEmail),
                                      Trim(newAuthorHash),
                                      newAuthorUsername)
  {
    Assemble(CheckId(lib, newAuthorId), CheckActivationToken(newAuthorActivationToken),
             CheckAvatarUrl(newAuthorAvatarUrl), CheckEmail(lib, newAuthorEmail),
             CheckHash(lib, newAuthorHash), CheckUsername(newAuthorUsername))
  }

  /** Construction fails exactly when some setter throws, and then with the first setter's exception. */
  lemma ConstructFailsWithFirstError(lib: Library, newAuthorId: IdInput, newAuthorActivationToken: PhpString,
                                     newAuthorAvatarUrl: PhpString, newAuthorEmail: PhpString,
                                     newAuthorHash: PhpString, newAuthorUsername: PhpString)
    ensures var r := Construct(lib, newAuthorId, newAuthorActivationToken, newAuthorAvatarUrl,
                               newAuthorEmail, newAuthorHash, newAuthorUsername);
            var first := FirstFailure(SetterOutcomes(lib, newAuthorId, newAuthorActivationToken,
                                                     newAuthorAvatarUrl, newAuthorEmail,
                                                     newAuthorHash, newAuthorUsername));
            (r.Failure? <==> first.Some?) && (r.Failure? ==> r.error == first.value)
  {
    AssembleFailsWithFirstError(CheckId(lib, newAuthorId), CheckActivationToken(newAuthorActivationToken),
                                CheckAvatarUrl(newAuthorAvatarUrl), CheckEmail(lib, newAuthorEmail),
                                CheckHash(lib, newAuthorHash), CheckUsername(newAuthorUsername));
  }

  /**
   * Reloading a record from its stored values gives the same record: every
   * stored value is accepted again unchanged, given an id input the UUID
   * validator maps back to the stored UUID.
   */
  lemma ReconstructStoredRecord(lib: Library, f: AuthorFields, storedId: IdInput)
    requires IsStoredRecord(lib, f)
    requires lib.validateUuid(storedId) == Success(f.id)
    ensures Construct(lib, storedId, f.activationToken, f.avatarUrl, f.email, f.hash, f.username) == Success(f)
  {
    assert CheckId(lib, storedId) == Success(f.id);
    assert CheckAvatarUrl(f.avatarUrl) == Success(f.avatarUrl);
    assert CheckUsername(f.username) == Success(f.username);
    StoredTokenReaccepted(f.activationToken);
    StoredEmailReaccepted(lib, f.email);
    StoredHashReaccepted(lib, f.hash);
  }

  /** A value of the serialised record: a string, or null for a field never set. */
  datatype JsonValue = JsonString(s: PhpString) | JsonNull

  function ToJson(v: Option<PhpString>): JsonValue {
    if v.Some? then JsonString(v.value) else JsonNull
  }

  const FIELD_NAMES: seq<string> := ["authorId", "authorActivationToken", "authorAvatarUrl",
                                     "authorEmail", "authorHash", "authorUsername"]

  const ID_IS_NULL := "Call to a member function toString() on null"

  /** The class as PHP names it in messages: qualified by the file's namespace. */
  const AUTHOR_CLASS := "RyanTorske\\ObjectOrientedPhase1\\Author"

  /** PHP's TypeError for a getter whose declared return type meets a null property. */
  function TypeErrorNull(getter: string, returnType: string): Thrown {
    Thrown(TypeError, getter + "(): Return value must be of type " + returnType + ", null returned")
  }

  class Author {
    // Each field is null (None) until its setter first accepts a value.
    var authorId: Option<Uuid>
    var authorActivationToken: Option<PhpString>
    var authorAvatarUrl: Option<PhpString>
    var authorEmail: Option<PhpString>
    var authorHash: Option<PhpString>
    var authorUsername: Option<PhpString>

    /** Every field set, each to a value its setter accepts. */
    ghost predicate Valid(lib: Library)
      reads this
    {
      && authorId.Some? && authorActivationToken.Some? && authorAvatarUrl.Some?
      && authorEmail.Some? && authorHash.Some? && authorUsername.Some?
      && IsStoredRecord(lib, Fields())
    }

    /** The record's values, once every field is set. */
    function Fields(): AuthorFields
      reads this
      requires authorId.Some? && authorActivationToken.Some? && authorAvatarUrl.Some?
      requires authorEmail.Some? && authorHash.Some? && authorUsername.Some?
    {
      AuthorFields(authorId.value, authorActivationToken.value, authorAvatarUrl.value,
                   authorEmail.value, authorHash.value, authorUsername.value)
    }

    /** The allocation `new Author(...)` performs before the constructor body runs: every field null. */
    constructor Allocate()
      ensures authorId == None && authorActivationToken == None && authorAvatarUrl == None
      ensures authorEmail == None && authorHash == None && authorUsername == None
    {
      authorId := None;
      authorActivationToken := None;
      authorAvatarUrl := None;
      authorEmail := None;
      authorHash := None;
      authorUsername := None;
    }

    /**
     * new Author(...): allocates, then runs the six setters in order. It yields
     * a record exactly when Construct succeeds, holding Construct's values,
     * and otherwise throws Construct's error, that of the first failing setter.
     */
    static method New(lib: Library, newAuthorId: IdInput, newAuthorActivationToken: PhpString,
                      newAuthorAvatarUrl: PhpString, newAuthorEmail: PhpString,
                      newAuthorHash: PhpString, newAuthorUsername: PhpString) returns (r: Result<Author, Thrown>)
      ensures var c := Construct(lib, newAuthorId, newAuthorActivationToken, newAuthorAvatarUrl,
                                 newAuthorEmail, newAuthorHash, newAuthorUsername);
              && (r.Success? <==> c.Success?)
              && (r.Failure? ==> r.error == c.error)
              && (r.Success? ==> fresh(r.value) && r.value.Valid(lib) && r.value.Fields() == c.value)
    {
      ghost var c := Construct(lib, newAuthorId, newAuthorActivationToken, newAuthorAvatarUrl,
                               newAuthorEmail, newAuthorHash, newAuthorUsername);
      var author := new Author.Allocate();
      var o := author.SetAuthorId(lib, newAuthorId);
      if o.Fail? {
        assert c == Failure(o.error);
        return Failure(o.error);
      }
      o := author.SetAuthorActivationToken(newAuthorActivationToken);
      if o.Fail? {
        assert c == Failure(o.error);
        return Failure(o.error);
      }
      o := author.SetAuthorAvatarUrl(newAuthorAvatarUrl);
      if o.Fail? {
        assert c == Failure(o.error);
        return Failure(o.error);
      }
      o := author.SetAuthorEmail(lib, newAuthorEmail);
      if o.Fail? {
        assert c == Failure(o.error);
        return Failure(o.error);
      }
      o := author.SetAuthorHash(lib, newAuthorHash);
      if o.Fail? {
        assert c == Failure(o.error);
        return Failure(o.error);
      }
      o := author.SetAuthorUsername(newAuthorUsername);
      if o.Fail? {
        assert c == Failure(o.error);
        return Failure(o.error);
      }
      assert author.authorId == Some(lib.validateUuid(newAuthorId).value);
      assert author.authorActivationToken == Some(NormalizeToken(newAuthorActivationToken));
      assert author.authorAvatarUrl == Some(newAuthorAvatarUrl);
      assert author.authorEmail == Some(Trim(newAuthorEmail));
      assert author.authorHash == Some(Trim(newAuthorHash));
      assert author.authorUsername == Some(newAuthorUsername);
      assert c.Success?;
      assert author.Fields() == c.value;
      return Success(author);
    }

    // ------------------------------------------------------------ getters

    /** getAuthorID: the stored UUID; with the field still null the `: Uuid` return type throws TypeError. */
    function GetAuthorId(): (r: Result<Uuid, Thrown>)
      reads this
      ensures authorId.Some? ==> r == Success(authorId.value)
      ensures authorId.None? ==> r.Failure? && r.error.cls == TypeError
    {
      if authorId.Some? then Success(authorId.value)
      else Failure(TypeErrorNull(AUTHOR_CLASS + "::getAuthorID", "Ramsey\\Uuid\\Uuid"))
    }

    /** getAuthorActivationToken: the stored token, unchanged. */
    function GetAuthorActivationToken(): (r: Result<PhpString, Thrown>)
      reads this
      ensures authorActivationToken.Some? ==> r == Success(authorActivationToken.value)
      ensures authorActivationToken.None? ==> r.Failure? && r.error.cls == TypeError
    {
      if authorActivationToken.Some? then Success(authorActivationToken.value)
      else Failure(TypeErrorNull(AUTHOR_CLASS + "::getAuthorActivationToken", "string"))
    }

    /** getAuthorAvatarUrl: the stored avatar URL, unchanged. */
    function GetAuthorAvatarUrl(): (r: Result<PhpString, Thrown>)
      reads this
      ensures authorAvatarUrl.Some? ==> r == Success(authorAvatarUrl.value)
      ensures authorAvatarUrl.None? ==> r.Failure? && r.error.cls == TypeError
    {
      if authorAvatarUrl.Some? then Success(authorAvatarUrl.value)
      else Failure(TypeErrorNull(AUTHOR_CLASS + "::getAuthorAvatarUrl", "string"))
    }

    /** getAuthorEmail: the stored e-mail address, unchanged. */
    function GetAuthorEmail(): (r: Result<PhpString, Thrown>)
      reads this
      ensures authorEmail.Some? ==> r == Success(authorEmail.value)
      ensures authorEmail.None? ==> r.Failure? && r.error.cls == TypeError
    {
      if authorEmail.Some? then Success(authorEmail.value)
      else Failure(TypeErrorNull(AUTHOR_CLASS + "::getAuthorEmail", "string"))
    }

    /** getAuthorHash: the stored hash, unchanged. */
    function GetAuthorHash(): (r: Result<PhpString, Thrown>)
      reads this
      ensures authorHash.Some? ==> r == Success(authorHash.value)
      ensures authorHash.None? ==> r.Failure? && r.error.cls == TypeError
    {
      if authorHash.Some? then Success(authorHash.value)
      else Failure(TypeErrorNull(AUTHOR_CLASS + "::getAuthorHash", "string"))
    }

    /** getAuthorUsername: the stored username, unchanged. */
    function GetAuthorUsername(): (r: Result<PhpString, Thrown>)
      reads this
      ensures authorUsername.Some? ==> r == Success(authorUsername.value)
      ensures authorUsername.None? ==> r.Failure? && r.error.cls == TypeError
    {
      if authorUsername.Some? then Success(authorUsername.value)
      else Failure(TypeErrorNull(AUTHOR_CLASS + "::getAuthorUsername", "string"))
    }

    // ------------------------------------------------------------ setters

    /**
     * setAuthorId: stores the validated UUID; a validation failure is
     * rethrown with the same class and message, and nothing changes.
     */
    method SetAuthorId(lib: Library, newAuthorId: IdInput) returns (o: Outcome<Thrown>)
      modifies this`authorId
      ensures authorActivationToken == old(authorActivationToken) && authorAvatarUrl == old(authorAvatarUrl)
      ensures authorEmail == old(authorEmail) && authorHash == old(authorHash)
      ensures authorUsername == old(authorUsername)
      ensures o == CheckId(lib, newAuthorId).ToOutcome()
      ensures o.Pass? ==> authorId == Some(CheckId(lib, newAuthorId).value)
      ensures o.Fail? ==> authorId == old(authorId)
      ensures old(Valid(lib)) ==> Valid(lib)
    {
      var uuid := lib.validateUuid(newAuthorId);
      if uuid.Failure? {
        return Fail(Thrown(uuid.error.cls, uuid.error.message));
      }
      authorId := Some(uuid.value);
      return Pass;
    }

    /**
     * setAuthorActivationToken: stores strtolower(trim(x)) when that is 32
     * hex digits; otherwise throws RangeException (the hex test first) and
     * nothing changes.
     */
    method SetAuthorActivationToken(newAuthorActivationToken: PhpString) returns (o: Outcome<Thrown>)
      modifies this`authorActivationToken
      ensures authorId == old(authorId) && authorAvatarUrl == old(authorAvatarUrl)
      ensures authorEmail == old(authorEmail) && authorHash == old(authorHash)
      ensures authorUsername == old(authorUsername)
      ensures o == CheckActivationToken(newAuthorActivationToken).ToOutcome()
      ensures o.Pass? ==> authorActivationToken == Some(NormalizeToken(newAuthorActivationToken))
      ensures o.Fail? ==> authorActivationToken == old(authorActivationToken)
      ensures forall lib: Library :: old(Valid(lib)) ==> Valid(lib)
    {
      var token := ToLower(Trim(newAuthorActivationToken));
      if !CtypeXdigit(token) {
        return Fail(Thrown(RangeException, TOKEN_NOT_HEX));
      }
      if |token| != TOKEN_LENGTH {
        return Fail(Thrown(RangeException, TOKEN_WRONG_LENGTH));
      }
      authorActivationToken := Some(token);
      return Pass;
    }

    /** setAuthorAvatarUrl: stores the URL verbatim when at most 255 bytes; otherwise throws RangeException. */
    method SetAuthorAvatarUrl(newAuthorAvatarUrl: PhpString) returns (o: Outcome<Thrown>)
      modifies this`authorAvatarUrl
      ensures authorId == old(authorId) && authorActivationToken == old(authorActivationToken)
      ensures authorEmail == old(authorEmail) && authorHash == old(authorHash)
      ensures authorUsername == old(authorUsername)
      ensures o == CheckAvatarUrl(newAuthorAvatarUrl).ToOutcome()
      ensures o.Pass? ==> authorAvatarUrl == Some(newAuthorAvatarUrl)
      ensures o.Fail? ==> authorAvatarUrl == old(authorAvatarUrl)
      ensures forall lib: Library :: old(Valid(lib)) ==> Valid(lib)
    {
      if |newAuthorAvatarUrl| > AVATAR_URL_MAX {
        return Fail(Thrown(RangeException, AVATAR_URL_TOO_LONG));
      }
      authorAvatarUrl := Some(newAuthorAvatarUrl);
      return Pass;
    }

    /**
     * setAuthorEmail, with the guard its doc-comment promises: stores the
     * trimmed address when the e-mail filter accepts it and it is at most 128
     * bytes; otherwise throws and nothing changes.
     */
    method SetAuthorEmail(lib: Library, newAuthorEmail: PhpString) returns (o: Outcome<Thrown>)
      modifies this`authorEmail
      ensures authorId == old(authorId) && authorActivationToken == old(authorActivationToken)
      ensures authorAvatarUrl == old(authorAvatarUrl) && authorHash == old(authorHash)
      ensures authorUsername == old(authorUsername)
      ensures o == CheckEmail(lib, newAuthorEmail).ToOutcome()
      ensures o.Pass? ==> authorEmail == Some(Trim(newAuthorEmail))
      ensures o.Fail? ==> authorEmail == old(authorEmail)
      ensures old(Valid(lib)) ==> Valid(lib)
    {
      var email := Trim(newAuthorEmail);
      if !lib.isValidEmail(email) {
        return Fail(Thrown(InvalidArgumentException, EMAIL_INVALID));
      }
      if |email| > EMAIL_MAX {
        return Fail(Thrown(RangeException, EMAIL_TOO_LONG));
      }
      authorEmail := Some(email);
      return Pass;
    }

    /**
     * setAuthorHash: stores the trimmed hash when it is non-empty, argon2i and
     * 96 bytes, checked in that order; otherwise throws and nothing changes.
     */
    method SetAuthorHash(lib: Library, newAuthorHash: PhpString) returns (o: Outcome<Thrown>)
      modifies this`authorHash
      ensures authorId == old(authorId) && authorActivationToken == old(authorActivationToken)
      ensures authorAvatarUrl == old(authorAvatarUrl) && authorEmail == old(authorEmail)
      ensures authorUsername == old(authorUsername)
      ensures o == CheckHash(lib, newAuthorHash).ToOutcome()
      ensures o.Pass? ==> authorHash == Some(Trim(newAuthorHash))
      ensures o.Fail? ==> authorHash == old(authorHash)
      ensures old(Valid(lib)) ==> Valid(lib)
    {
      var hash := Trim(newAuthorHash);
      if IsPhpEmpty(hash) {
        return Fail(Thrown(InvalidArgumentException, HASH_EMPTY));
      }
      if lib.hashAlgoName(hash) != ARGON2I {
        return Fail(Thrown(InvalidArgumentException, HASH_NOT_ARGON2I));
      }
      if |hash| != HASH_LENGTH {
        return Fail(Thrown(RangeException, HASH_WRONG_LENGTH));
      }
      authorHash := Some(hash);
      return Pass;
    }

    /** setAuthorUsername: stores the name verbatim when at most 32 bytes; otherwise throws RangeException. */
    method SetAuthorUsername(newAuthorUsername: PhpString) returns (o: Outcome<Thrown>)
      modifies this`authorUsername
      ensures authorId == old(authorId) && authorActivationToken == old(authorActivationToken)
      ensures authorAvatarUrl == old(authorAvatarUrl) && authorEmail == old(authorEmail)
      ensures authorHash == old(authorHash)
      ensures o == CheckUsername(newAuthorUsername).ToOutcome()
      ensures o.Pass? ==> authorUsername == Some(newAuthorUsername)
      ensures o.Fail? ==> authorUsername == old(authorUsername)
      ensures forall lib: Library :: old(Valid(lib)) ==> Valid(lib)
    {
      if |newAuthorUsername| > USERNAME_MAX {
        return Fail(Thrown(RangeException, USERNAME_TOO_LONG));
      }
      authorUsername := Some(newAuthorUsername);
      return Pass;
    }

    // ------------------------------------------------------ serialisation

    /**
     * jsonSerialize: get_object_vars lists the six fields in declaration
     * order; the authorId entry is replaced by the UUID's canonical string,
     * the other five values are the stored ones (null when never set). With
     * authorId still null, calling toString() on it throws an \Error.
     */
    function JsonSerialize(lib: Library): (r: Result<seq<(string, JsonValue)>, Thrown>)
      reads this
      ensures r.Success? <==> authorId.Some?
      ensures r.Failure? ==> r.error.cls == PhpError
      ensures r.Success? ==>
                && |r.value| == |FIELD_NAMES|
                && (forall k :: 0 <= k < |r.value| ==> r.value[k].0 == FIELD_NAMES[k])
                && r.value[0].1 == JsonString(lib.uuidToString(authorId.value))
                && r.value[1].1 == ToJson(authorActivationToken)
                && r.value[2].1 == ToJson(authorAvatarUrl)
                && r.value[3].1 == ToJson(authorEmail)
                && r.value[4].1 == ToJson(authorHash)
                && r.value[5].1 == ToJson(authorUsername)
    {
      if authorId.None? then Failure(Thrown(PhpError, ID_IS_NULL))
      else
        Success([ ("authorId", JsonString(lib.uuidToString(authorId.value))),
                  ("authorActivationToken", ToJson(authorActivationToken)),
                  ("authorAvatarUrl", ToJson(authorAvatarUrl)),
                  ("authorEmail", ToJson(authorEmail)),
                  ("authorHash", ToJson(authorHash)),
                  ("authorUsername", ToJson(authorUsername)) ])
    }
  }

  /**
   * A record built by the constructor reads back through its getters as the
   * normalised inputs, and serialises with no null entry: the id as its
   * canonical string, the other five values as the getters return them.
   */
  method ConstructedRecordReadsBack(lib: Library, newAuthorId: IdInput, newAuthorActivationToken: PhpString,
                                    newAuthorAvatarUrl: PhpString, newAuthorEmail: PhpString,
                                    newAuthorHash: PhpString, newAuthorUsername: PhpString)
      returns (author: Result<Author, Thrown>)
    ensures author.Success? <==> Construct(lib, newAuthorId, newAuthorActivationToken, newAuthorAvatarUrl,
                                           newAuthorEmail, newAuthorHash, newAuthorUsername).Success?
    ensures author.Success? ==>
              && author.value.GetAuthorId() == lib.validateUuid(newAuthorId)
              && author.value.GetAuthorActivationToken() == Success(NormalizeToken(newAuthorActivationToken))
              && author.value.GetAuthorAvatarUrl() == Success(newAuthorAvatarUrl)
              && author.value.GetAuthorEmail() == Success(Trim(newAuthorEmail))
              && author.value.GetAuthorHash() == Success(Trim(newAuthorHash))
              && author.value.GetAuthorUsername() == Success(newAuthorUsername)
              && author.value.JsonSerialize(lib).Success?
              && forall k :: 0 <= k < 6 ==> author.value.JsonSerialize(lib).value[k].1.JsonString?
  {
    author := Author.New(lib, newAuthorId, newAuthorActivationToken, newAuthorAvatarUrl,
                         newAuthorEmail, newAuthorHash, newAuthorUsername);
    if author.Success? {
      var a := author.value;
      var json := a.JsonSerialize(lib);
      assert a.Fields() == AuthorFields(lib.validateUuid(newAuthorId).value,
                                        NormalizeToken(newAuthorActivationToken), newAuthorAvatarUrl,
                                        Trim(newAuthorEmail), Trim(newAuthorHash), newAuthorUsername);
      assert a.authorId.Some? && a.authorActivationToken.Some? && a.authorAvatarUrl.Some?;
      assert a.authorEmail.Some? && a.authorHash.Some? && a.authorUsername.Some?;
      assert json.Success? && json.value[0].1.JsonString? && json.value[1].1.JsonString?
             && json.value[2].1.JsonString? && json.value[3].1.JsonString?
             && json.value[4].1.JsonString? && json.value[5].1.JsonString?;
    }
  }
}
