/**
 * The near-duplicate class of php/Classes/Foo.php: an `author` class in the
 * global namespace with the same id and activation-token accessors as the
 * Author record. Its setters are proved against the same Check functions of
 * module Fields, so the two classes agree on every input.
 */
module FooRecord {
  import opened PhpStrings
  import opened Runtime
  import opened Fields
  import AuthorRecord

  class Author {
    // Null (None) until the setter first accepts a value.
    var authorId: Option<Uuid>
    var authorActivationToken: Option<PhpString>

    /** A fresh object: both fields null. */
    constructor ()
      ensures authorId == None && authorActivationToken == None
    {
      authorId := None;
      authorActivationToken := None;
    }

    /** getAuthorID: the stored UUID; with the field still null the return type throws TypeError. */
    function GetAuthorId(): (r: Result<Uuid, Thrown>)
      reads this
      ensures authorId.Some? ==> r == Success(authorId.value)
      ensures authorId.None? ==> r.Failure? && r.error.cls == TypeError
    {
      if authorId.Some? then Success(authorId.value)
      else Failure(AuthorRecord.TypeErrorNull("author::getAuthorID", "Uuid"))
    }

    /** getAuthorActivationToken: the stored token, unchanged. */
    function GetAuthorActivationToken(): (r: Result<PhpString, Thrown>)
      reads this
      ensures authorActivationToken.Some? ==> r == Success(authorActivationToken.value)
      ensures authorActivationToken.None? ==> r.Failure? && r.error.cls == TypeError
    {
      if authorActivationToken.Some? then Success(authorActivationToken.value)
      else Failure(AuthorRecord.TypeErrorNull("author::getAuthorActivationToken", "string"))
    }

    /**
     * setAuthorId: stores the validated UUID; a validation failure is
     * rethrown with the same class and message, and the field is unchanged.
     */
    method SetAuthorId(lib: Library, newAuthorId: IdInput) returns (o: Outcome<Thrown>)
      modifies this`authorId
      ensures o == CheckId(lib, newAuthorId).ToOutcome()
      ensures o.Pass? ==> authorId == Some(CheckId(lib, newAuthorId).value)
      ensures o.Fail? ==> authorId == old(authorId)
    {
      var uuid := lib.validateUuid(newAuthorId);
      if uuid.Failure? {
        return Fail(Thrown(uuid.error.cls, uuid.error.message));
      }
      authorId := Some(uuid.value);
      return Pass;
    }

    /**
     * setAuthorActivationToken: stores strtolower(trim(x)) when that is 32
     * hex digits; otherwise throws RangeException (the hex test first) and
     * the field is unchanged.
     */
    method SetAuthorActivationToken(newAuthorActivationToken: PhpString) returns (o: Outcome<Thrown>)
      modifies this`authorActivationToken
      ensures o == CheckActivationToken(newAuthorActivationToken).ToOutcome()
      ensures o.Pass? ==> authorActivationToken == Some(NormalizeToken(newAuthorActivationToken))
                          && IsStoredToken(authorActivationToken.value)
      ensures o.Fail? ==> authorActivationToken == old(authorActivationToken)
    {
      var token := ToLower(Trim(newAuthorActivationToken));
      if !CtypeXdigit(token) {
        return Fail(Thrown(RangeException, TOKEN_NOT_HEX));
      }
      if |token| != TOKEN_LENGTH {
        return Fail(Thrown(RangeException, TOKEN_WRONG_LENGTH));
      }
      authorActivationToken := Some(token);
      return Pass;
    }
  }

  /**
   * The two classes' activation-token setters agree: given the same token,
   * fresh objects of both throw the same exception or store the same value.
   */
  method TokenSettersAgree(newAuthorActivationToken: PhpString)
      returns (record: Outcome<Thrown>, duplicate: Outcome<Thrown>,
               recordToken: Option<PhpString>, duplicateToken: Option<PhpString>)
    ensures record == duplicate && recordToken == duplicateToken
    ensures recordToken.Some? <==> IsStoredToken(NormalizeToken(newAuthorActivationToken))
  {
    var a := new AuthorRecord.Author.Allocate();
    var f := new Author();
    record := a.SetAuthorActivationToken(newAuthorActivationToken);
    duplicate := f.SetAuthorActivationToken(newAuthorActivationToken);
    recordToken := a.authorActivationToken;
    duplicateToken := f.authorActivationToken;
  }

  /**
   * The two classes' id setters agree: given the same id input, fresh objects
   * of both rethrow the same exception or store the same UUID.
   */
  method IdSettersAgree(lib: Library, newAuthorId: IdInput)
      returns (record: Outcome<Thrown>, duplicate: Outcome<Thrown>,
               recordId: Option<Uuid>, duplicateId: Option<Uuid>)
    ensures record == duplicate && recordId == duplicateId
    ensures recordId.Some? <==> lib.validateUuid(newAuthorId).Success?
  {
    var a := new AuthorRecord.Author.Allocate();
    var f := new Author();
    record := a.SetAuthorId(lib, newAuthorId);
    duplicate := f.SetAuthorId(lib, newAuthorId);
    recordId := a.authorId;
    duplicateId := f.authorId;
  }
}
