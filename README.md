# Author record of object-oriented-phase1, in Dafny

This project models the field-validation core of the `Author` class of a news
site's author profile (`php/Classes/Author.php`), together with its
near-duplicate `author` class (`php/Classes/Foo.php`).

An author has six fields: a UUID id, an activation token, an avatar URL, an
e-mail address, a password hash and a username. Each field has a guarded
setter and a getter. The constructor runs the six setters in order, and
`jsonSerialize` exports the record. The model also covers the LIKE pattern that
`getAuthorByAuthorUsername` builds from a search string.

Modules:

- `PhpStrings` (`php_strings.dfy`): PHP strings as byte sequences, and the
  built-ins the setters use: `trim()`, `strtolower()`, `ctype_xdigit()`,
  `empty()` on a string, and `str_replace()` with a one-byte search string.
- `Runtime` (`runtime.dfy`):
  - `Result` and `Outcome` stand for a call that returns or throws;
  - `Thrown` is the object thrown, with its class and its message;
  - `Library` is a datatype of functions standing for the library calls whose
    code is not part of the model: the UUID validator, `Uuid::toString()`,
    `filter_var` with `FILTER_VALIDATE_EMAIL` and `FILTER_SANITIZE_STRING`, and
    `password_get_info`.
- `Fields` (`fields.dfy`): one pure `Check` function per setter. Each gives the
  value the setter stores, or what it throws, with the source's constants,
  messages and order of checks. The module also has the e-mail setter as its
  code is written (see Findings).
- `AuthorRecord` (`author.dfy`): the `Author` class.
  - Its fields are `Option` values, `None` being PHP's `null` before the first
    set.
  - Each setter is a method proved against its `Check` function. It changes
    only its own field, and only when it does not throw.
  - Getters are functions that throw `TypeError` while the field is null,
    because of the declared return type.
  - The constructor is `Author.New`, proved against the pure `Construct`.
  - `JsonSerialize` is also here.
- `LikeSearch` (`like_search.dfy`):
  - the wildcard escaping of `getAuthorByAuthorUsername`, as written and
    corrected;
  - LIKE matching with MySQL's default escape byte `\`;
  - proofs of what the built pattern matches.
- `FooRecord` (`foo.dfy`): the duplicate class's id and token accessors. Its
  setters are proved against the same `Check` functions. Two methods show that
  both classes' setters behave identically on the same input.

The model follows the code as written everywhere except `setAuthorEmail` and
the return type of `getAuthorID` in `php/Classes/Foo.php` (see Left out). For
`setAuthorEmail` the corrected behaviour is modelled and the code as written
sits beside it (see Findings). Two points where the code and its comments differ:

- `setAuthorUsername` (`php/Classes/Author.php:249-257`) accepts the empty
  name. Its null branch at lines 250-251 throws "Author Needs to have a
  Username.", but the parameter is declared `string` and is never null there.
  Only a name longer than 32 bytes is refused.
- The hash length is 96 in the check at `php/Classes/Author.php:229`. The
  comment above it says 97 and the doc-comment says 128. The model uses 96.

`php/Classes/Author.php` as written does not parse: `funtion` at line 369, and
no `;` after the query at line 377. The model describes the class as its
statements read, leaving out the broken `getAuthorbyAuthorId`.

## Model

| member | source | states |
|---|---|---|
| PhpStrings.TrimStart | php/Classes/Author.php:138 | trim()'s start: every byte skipped is one of " \t\n\r\0\x0B", and the byte it stops at is not |
| PhpStrings.TrimEnd | php/Classes/Author.php:138 | trim()'s end: every byte dropped from the right is trimmable, and the last byte kept is not |
| PhpStrings.Trim | php/Classes/Author.php:189 | trim() leaves no trimmable byte at either end and never lengthens its input |
| PhpStrings.TrimKeepsMiddle | php/Classes/Author.php:218 | trim() keeps a contiguous middle of its input, and every byte it drops at either end is trimmable |
| PhpStrings.TrimOfTrimmed | php/Classes/Author.php:189 | a string with no trimmable byte at either end is its own trim() |
| PhpStrings.TrimIdempotent | php/Classes/Author.php:218 | trim(trim(s)) == trim(s) |
| PhpStrings.LowerByte | php/Classes/Author.php:138 | strtolower on one byte: 'A'..'Z' move up by 32, every other byte is kept, and no upper-case letter is left |
| PhpStrings.ToLower | php/Classes/Author.php:138 | strtolower() keeps the length and lower-cases byte by byte |
| PhpStrings.CtypeXdigit | php/Classes/Author.php:139 | ctype_xdigit() is false of the empty string and true of every non-empty string of lower-case hexadecimal digits |
| PhpStrings.IsPhpEmpty | php/Classes/Author.php:219 | empty() on a string holds exactly of the strings shorter than two bytes made only of '0', that is "" and "0" |
| PhpStrings.StrReplace | php/Classes/Author.php:331 | str_replace with a one-byte search leaves a string without that byte unchanged, and with a non-empty replacement never shortens the string |
| PhpStrings.StrReplaceAppend | php/Classes/Author.php:331-332 | str_replace with a one-byte search distributes over concatenation |
| Fields.CheckId | php/Classes/Author.php:103-112 | the id setter stores exactly the validator's UUID; on failure it rethrows the validator's class and message |
| Fields.NormalizeToken | php/Classes/Author.php:138 | strtolower(trim(x)) is never longer than x and holds no upper-case ASCII letter |
| Fields.CheckActivationToken | php/Classes/Author.php:138-146 | accepts iff strtolower(trim(x)) is 32 lower-case hex digits and stores that; a non-hex or empty token throws RangeException "Author Activation is Not Valid" before any length check; a hex token of the wrong length throws "Author Activation Token Must Be 32 Characters" |
| Fields.StoredTokenReaccepted | php/Classes/Author.php:138-146 | a stored token passes the setter again unchanged |
| Fields.HexTokenAccepted | php/Classes/Author.php:138-146 | any 32 hex digits, in either case, are accepted and stored lower-cased |
| Fields.CheckAvatarUrl | php/Classes/Author.php:167-170 | accepts iff at most 255 bytes and stores the URL untrimmed; otherwise RangeException with the source's message |
| Fields.CheckEmail | php/Classes/Author.php:181-198 | the documented contract: accepts iff the filter accepts trim(x) and it is at most 128 bytes, and stores trim(x); a rejected address throws InvalidArgumentException first, and a long one throws RangeException |
| Fields.StoredEmailReaccepted | php/Classes/Author.php:189-197 | a stored address passes the corrected setter again unchanged |
| Fields.EmailAsWritten | php/Classes/Author.php:189-197 | the code as written: throws iff the filter accepts and the address is over 128 bytes, and then throws \Error; the stored value is false iff the filter rejects the address |
| Fields.RejectedEmailAcceptedAsWritten | php/Classes/Author.php:190-191 | an address the filter rejects is refused by the documented contract, but the code stores false for it |
| Fields.LongEmailThrowsErrorAsWritten | php/Classes/Author.php:194-196 | an accepted address over 128 bytes throws RangeException in the documented contract, but the code throws \Error (class not found) |
| Fields.EmailAsWrittenAgreesOnValid | php/Classes/Author.php:189-197 | on addresses the filter accepts, the code and the documented contract agree on success and on the stored value |
| Fields.CheckHash | php/Classes/Author.php:218-233 | accepts iff password_get_info names trim(x) argon2i and it is exactly 96 bytes, and stores trim(x); the checks come in order: empty() ("" or "0") and non-argon2i throw InvalidArgumentException, a wrong length throws RangeException |
| Fields.StoredHashReaccepted | php/Classes/Author.php:218-233 | a stored hash passes the setter again unchanged |
| Fields.CheckUsername | php/Classes/Author.php:253-256 | accepts iff at most 32 bytes, including the empty name, and stores it verbatim; otherwise RangeException |
| AuthorRecord.SetterOutcomes | php/Classes/Author.php:38-43 | the six setter outcomes, in the constructor's call order |
| AuthorRecord.FirstFailure | php/Classes/Author.php:37-47 | none iff every outcome passes, otherwise the first failure |
| AuthorRecord.FirstFailureAfterPasses | php/Classes/Author.php:37-43 | outcomes that pass do not affect the first failure |
| AuthorRecord.FirstFailureAt | php/Classes/Author.php:37-43 | the first failing outcome after passing ones is the first failure |
| AuthorRecord.Assemble | php/Classes/Author.php:37-43 | the record exists iff all six setter results succeed, and it holds their values |
| AuthorRecord.AssembleFailsWithFirstError | php/Classes/Author.php:37-47 | combining the setter results fails iff one fails, and then with the first failure's exception |
| AuthorRecord.Construct | php/Classes/Author.php:36-48 | construction succeeds iff all six checks accept. The record then satisfies every field's stored-value predicate and holds the validated UUID, the normalised token, the URL, the trimmed e-mail, the trimmed hash and the username |
| AuthorRecord.ConstructFailsWithFirstError | php/Classes/Author.php:37-47 | construction fails iff some setter throws, and then with the first failing setter's exception, unchanged, because the unqualified catch never matches |
| AuthorRecord.ReconstructStoredRecord | php/Classes/Author.php:348 | rebuilding a record from its stored values, as the fetch loop does, gives the same record |
| AuthorRecord.Author.Allocate | php/Classes/Author.php:54-84 | a new object has all six fields null |
| AuthorRecord.Author.New | php/Classes/Author.php:36-48 | new Author(...) runs the setters in order. It returns a fresh record iff Construct succeeds, and the record is valid and holds Construct's values; otherwise it throws Construct's error |
| AuthorRecord.Author.GetAuthorId | php/Classes/Author.php:92-94 | returns the stored UUID; throws TypeError while the field is null |
| AuthorRecord.Author.GetAuthorActivationToken | php/Classes/Author.php:121-123 | returns the stored token unchanged; throws TypeError while the field is null |
| AuthorRecord.Author.GetAuthorAvatarUrl | php/Classes/Author.php:153-155 | returns the stored URL unchanged; throws TypeError while the field is null |
| AuthorRecord.Author.GetAuthorEmail | php/Classes/Author.php:177-179 | returns the stored address unchanged; throws TypeError while the field is null |
| AuthorRecord.Author.GetAuthorHash | php/Classes/Author.php:204-206 | returns the stored hash unchanged; throws TypeError while the field is null |
| AuthorRecord.Author.GetAuthorUsername | php/Classes/Author.php:240-242 | returns the stored username unchanged; throws TypeError while the field is null |
| AuthorRecord.Author.SetAuthorId | php/Classes/Author.php:103-112 | outcome is CheckId's; on success authorId is the validated UUID, on failure it is unchanged; no other field changes; validity is preserved |
| AuthorRecord.Author.SetAuthorActivationToken | php/Classes/Author.php:133-147 | outcome is CheckActivationToken's; on success the field holds strtolower(trim(x)), on failure it is unchanged; no other field changes; validity is preserved |
| AuthorRecord.Author.SetAuthorAvatarUrl | php/Classes/Author.php:162-171 | outcome is CheckAvatarUrl's; on success the field holds x, on failure it is unchanged; no other field changes; validity is preserved |
| AuthorRecord.Author.SetAuthorEmail | php/Classes/Author.php:188-198 | outcome is CheckEmail's (the corrected contract); on success the field holds trim(x), on failure it is unchanged; no other field changes; validity is preserved |
| AuthorRecord.Author.SetAuthorHash | php/Classes/Author.php:216-234 | outcome is CheckHash's; on success the field holds trim(x), on failure it is unchanged; no other field changes; validity is preserved |
| AuthorRecord.Author.SetAuthorUsername | php/Classes/Author.php:249-257 | outcome is CheckUsername's; on success the field holds x, on failure it is unchanged; no other field changes; validity is preserved |
| AuthorRecord.Author.JsonSerialize | php/Classes/Author.php:387-391 | throws \Error iff authorId is null. Otherwise it gives the six fields in declaration order: authorId as its canonical string, the other five as stored (null if never set) |
| AuthorRecord.ConstructedRecordReadsBack | php/lib/index.php:9-16 | a constructed record reads back through its getters as the normalised inputs, and serialises with no null entry |
| LikeSearch.EscapeWildcardsAsWritten | php/Classes/Author.php:331-332 | the two str_replace calls never shorten the string and leave a string without '%' and '_' unchanged |
| LikeSearch.SearchPatternAsWritten | php/Classes/Author.php:327-339 | the pattern as built starts and ends with '%' and is at least two bytes longer than the sanitised, trimmed search string |
| LikeSearch.EscapeAsWrittenIsByteWise | php/Classes/Author.php:331-332 | the two str_replace calls escape each '%' and '_' with '\' in one pass and keep every other byte, '\' included |
| LikeSearch.EscapesAgreeWithoutBackslash | php/Classes/Author.php:331-332 | on input without '\', the written escaping equals the complete one |
| LikeSearch.EscapeEachAgrees | php/Classes/Author.php:331-332 | byte-wise, the written escaping equals the complete one on input without '\' |
| LikeSearch.Literals | php/Classes/Author.php:339 | one literal token per byte, in order |
| LikeSearch.TokenizeEscaped | php/Classes/Author.php:331-339 | LIKE reads a completely escaped string followed by '%' as its bytes, literally, then "any bytes" |
| LikeSearch.AnyBytesMatchesAll | php/Classes/Author.php:339 | a lone '%' matches every text |
| LikeSearch.LiteralsThenAnyMatchPrefix | php/Classes/Author.php:339 | literal bytes then '%' match exactly the texts those bytes begin |
| LikeSearch.WrappedLiteralsMatchSubstring | php/Classes/Author.php:339 | '%', literal bytes, '%' match exactly the texts that contain those bytes |
| LikeSearch.SearchPatternMatchesSubstring | php/Classes/Author.php:327-339 | with the complete escaping, a stored username matches iff it contains the sanitised, trimmed search string |
| LikeSearch.SearchPatternAsWrittenWithoutBackslash | php/Classes/Author.php:327-339 | on a search string without '\', the pattern as written is the corrected one, so the substring property holds for it |
| LikeSearch.PatternForBackslash | php/Classes/Author.php:327-339 | the search "a\" gives the pattern "%a\%", which LIKE reads as any bytes, 'a', then a literal '%' |
| LikeSearch.BackslashDefeatsEscaping | php/Classes/Author.php:331-339 | with the escaping as written, the search "a\" matches the username "a%", which does not contain it, and misses "xa\y", which does |
| LikeSearch.NoMatchWithoutPercent | php/Classes/Author.php:339 | the pattern "%a\%" matches no text without a '%' |
| FooRecord.Author.constructor | php/Classes/Foo.php:17-23 | a new object has both fields null |
| FooRecord.Author.GetAuthorId | php/Classes/Foo.php:53-55 | returns the stored UUID; throws TypeError while the field is null |
| FooRecord.Author.GetAuthorActivationToken | php/Classes/Foo.php:76-78 | returns the stored token unchanged; throws TypeError while the field is null |
| FooRecord.Author.SetAuthorId | php/Classes/Foo.php:62-71 | outcome is CheckId's; on success authorId is the validated UUID, and on failure it is unchanged |
| FooRecord.Author.SetAuthorActivationToken | php/Classes/Foo.php:87-101 | outcome is CheckActivationToken's; on success the field holds strtolower(trim(x)), which is 32 lower-case hex digits; on failure it is unchanged |
| FooRecord.TokenSettersAgree | php/Classes/Foo.php:87-101 | both classes' token setters, given the same input, throw the same or store the same token, and they store one iff the normalised token is valid |
| FooRecord.IdSettersAgree | php/Classes/Foo.php:62-71 | both classes' id setters, given the same input, rethrow the same or store the same UUID, and they store one iff the validator accepts |

## Left out

- Persistence: `insert`, `update`, `delete`, the query and fetch loop of `getAuthorByAuthorUsername`, and `getAuthorbyAuthorId`. These are database I/O through PDO, and `getAuthorbyAuthorId` does not parse. `ReconstructStoredRecord` covers the per-row reconstruction at line 348; `LikeSearch` covers the pattern.
- Collation: LIKE compares bytes exactly. Case-insensitive collations and trailing-space rules are not modelled.
- The library calls are parameters in `Library`: UUID validation and formatting, the e-mail filter, the string sanitiser and `password_get_info`. Their code is not part of this model.
- The id accepts a string or a UUID object (`IdInput`). Other argument types, which the validator rejects, are not modelled separately.
- The dead `=== null` branches of the token, avatar URL and username setters are left out. Each parameter is declared `string`, so a null argument throws TypeError before the body runs. The model has no null arguments.
- Rethrown exceptions keep their class and message; the exception code and the chained previous exception are not modelled.
- FooRecord.Author.GetAuthorId returns the stored UUID. `php/Classes/Foo.php` is in the global namespace and imports no `Uuid`, so its declared return type names a class that is not the UUID's. The model does not capture the TypeError that would follow.
- AuthorRecord.Author.SetAuthorEmail follows the corrected contract (`Fields.CheckEmail`). The code as written is `Fields.EmailAsWritten`: it stores `false` for an address the filter rejects, and throws `\Error` instead of `RangeException` for an accepted address over 128 bytes. The difference is under Findings.
- AuthorRecord.Construct uses the corrected e-mail check. As written, construction with an address the filter rejects succeeds and stores `false`, and with an accepted address over 128 bytes it throws `\Error`.
- AuthorRecord.ConstructFailsWithFirstError reports the corrected e-mail check's exception, not the code's `\Error` for a long address, and no failure for a rejected one.
- AuthorRecord.Author.New follows Construct, so it inherits the corrected e-mail check described above.
- AuthorRecord.ConstructedRecordReadsBack follows New: as written, `GetAuthorEmail` on a record built with a rejected address returns `""`, because the `: string` return type converts the stored `false` (the file does not declare strict types); it does not return the trimmed address.
- `AuthorRecord.Author.JsonSerialize` returns entries whose values are strings or null. A non-null entry holding `false`, left by the e-mail setter as written, is not modelled, because the class uses the corrected setter.
- `AuthorRecord.ConstructedRecordReadsBack` follows `php/lib/index.php:9-16`. It leaves out `var_dump` and `echo`, and the `password_hash` call that produces the hash.

## Findings

| source | as written | input that shows it | evidently intended | confidence | as-written member | corrected member |
|---|---|---|---|---|---|---|
| php/Classes/Author.php:190-193 | `filter_var` returns `false` for a rejected address, but the guard tests `=== null`; the address goes on, and `false` is stored | `setAuthorEmail("not-an-email")` | throw InvalidArgumentException "Author Email is empty or not secure." | not executed | Fields.RejectedEmailAcceptedAsWritten | Fields.CheckEmail |
| php/Classes/Author.php:194-196 | `new RangeException` is unqualified inside namespace `RyanTorske\ObjectOrientedPhase1`, where no such class exists, so PHP throws \Error "Class not found" | an address the filter accepts, 129 bytes long | throw \RangeException "Author Email Can Be a Max of 128 Characters in Length" | not executed | Fields.LongEmailThrowsErrorAsWritten | Fields.CheckEmail |
| php/Classes/Author.php:331-332 | the escaping adds `\` before `%` and `_` but leaves `\` itself unescaped, so a trailing `\` in the search escapes the closing `%` | search "a\" against stored usernames "a%" and "xa\y" | find exactly the usernames that contain the search string | not executed | LikeSearch.BackslashDefeatsEscaping | LikeSearch.SearchPatternMatchesSubstring |
