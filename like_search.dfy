/**
 * The pattern getAuthorByAuthorUsername builds for its LIKE query
 * (php/Classes/Author.php:327-339), and what that pattern matches.
 *
 * LIKE semantics, as used by MySQL with its default escape byte '\':
 * '%' matches any run of bytes, '_' matches one byte, '\' followed by a byte
 * matches that byte literally, and any other byte (including a lone '\' at
 * the very end) matches itself. Collation (case folding, trailing spaces) is
 * not part of this model: bytes compare exactly.
 */
module LikeSearch {
  import opened PhpStrings
  import opened Runtime

  const PERCENT: byte := 37
  const UNDERSCORE: byte := 95
  const BACKSLASH: byte := 92

  // ------------------------------------------------------- LIKE semantics

  datatype Token = Literal(b: byte) | AnyByte | AnyBytes

  /** How LIKE reads a pattern. */
  function Tokenize(p: PhpString): seq<Token>
    decreases |p|
  {
    if p == [] then []
    else if p[0] == BACKSLASH && |p| >= 2 then [Literal(p[1])] + Tokenize(p[2..])
    else if p[0] == PERCENT then [AnyBytes] + Tokenize(p[1..])
    else if p[0] == UNDERSCORE then [AnyByte] + Tokenize(p[1..])
    else [Literal(p[0])] + Tokenize(p[1..])
  }

  predicate MatchTokens(ts: seq<Token>, text: PhpString)
    decreases |ts|, |text|
  {
    if ts == [] then text == []
    else match ts[0]
      case Literal(b) => |text| > 0 && text[0] == b && MatchTokens(ts[1..], text[1..])
      case AnyByte => |text| > 0 && MatchTokens(ts[1..], text[1..])
      case AnyBytes => MatchTokens(ts[1..], text) || (|text| > 0 && MatchTokens(ts, text[1..]))
  }

  /** `text LIKE pattern`. */
  predicate Like(text: PhpString, pattern: PhpString) {
    MatchTokens(Tokenize(pattern), text)
  }

  predicate IsPrefix(needle: PhpString, hay: PhpString) {
    |needle| <= |hay| && hay[..|needle|] == needle
  }

  /** needle occurs in hay as a contiguous run of bytes. */
  predicate IsSubstring(needle: PhpString, hay: PhpString)
    decreases |hay|
  {
    IsPrefix(needle, hay) || (|hay| > 0 && IsSubstring(needle, hay[1..]))
  }

  // --------------------------------------------- the escaping, as written

  /**
   * The escaping as written: str_replace of "%" by "\%", then of "_" by "\_".
   */
  function EscapeWildcardsAsWritten(s: PhpString): (r: PhpString)
    ensures |r| >= |s|
    ensures (forall i :: 0 <= i < |s| ==> s[i] != PERCENT && s[i] != UNDERSCORE) ==> r == s
  {
    var result := StrReplace(s, PERCENT, [BACKSLASH, PERCENT]);
    StrReplace(result, UNDERSCORE, [BACKSLASH, UNDERSCORE])
  }

  /** One byte of the written escaping: '%' and '_' get a backslash, every other byte, '\' included, is kept. */
  function EscapeWildcardByte(b: byte): PhpString {
    if b == PERCENT || b == UNDERSCORE then [BACKSLASH, b] else [b]
  }

  function EscapeEachWildcard(s: PhpString): PhpString {
    if s == [] then [] else EscapeWildcardByte(s[0]) + EscapeEachWildcard(s[1..])
  }

  /**
   * The two str_replace calls amount to one pass over the input: each '%'
   * becomes "\%", each '_' becomes "\_", and every other byte, '\' included,
   * is kept, all in their original order. (Replacing '%' first is harmless:
   * the backslashes it inserts are not '_'.)
   */
  lemma {:induction false} EscapeAsWrittenIsByteWise(s: PhpString)
    ensures EscapeWildcardsAsWritten(s) == EscapeEachWildcard(s)
  {
    if s != [] {
      var head := if s[0] == PERCENT then [BACKSLASH, PERCENT] else [s[0]];
      var rest := StrReplace(s[1..], PERCENT, [BACKSLASH, PERCENT]);
      assert StrReplace(s, PERCENT, [BACKSLASH, PERCENT]) == head + rest;
      StrReplaceAppend(head, rest, UNDERSCORE, [BACKSLASH, UNDERSCORE]);
      assert StrReplace(head, UNDERSCORE, [BACKSLASH, UNDERSCORE]) == EscapeWildcardByte(s[0]) by {
        if s[0] == PERCENT {
          assert StrReplace(head, UNDERSCORE, [BACKSLASH, UNDERSCORE])
              == [BACKSLASH] + StrReplace([PERCENT], UNDERSCORE, [BACKSLASH, UNDERSCORE]);
        }
      }
      EscapeAsWrittenIsByteWise(s[1..]);
    }
  }

  /** The pattern as the code builds it: trim, sanitise, escape, wrap in '%'. */
  function SearchPatternAsWritten(lib: Library, authorUsername: PhpString): (r: PhpString)
    ensures |r| >= |lib.sanitizeString(Trim(authorUsername))| + 2
    ensures r[0] == PERCENT && r[|r| - 1] == PERCENT
  {
    var sanitized := lib.sanitizeString(Trim(authorUsername));
    [PERCENT] + EscapeWildcardsAsWritten(sanitized) + [PERCENT]
  }

  // ----------------------------------------------- the escaping, corrected

  /** One byte of the complete escaping: the escape byte itself is escaped too. */
  function EscapeLikeByte(b: byte): PhpString {
    if b == PERCENT || b == UNDERSCORE || b == BACKSLASH then [BACKSLASH, b] else [b]
  }

  /** Escapes '\', '%' and '_' so that LIKE reads every byte of s literally. */
  function EscapeLike(s: PhpString): PhpString {
    if s == [] then [] else EscapeLikeByte(s[0]) + EscapeLike(s[1..])
  }

  /** The search pattern with the complete escaping. */
  function SearchPattern(lib: Library, authorUsername: PhpString): PhpString {
    var sanitized := lib.sanitizeString(Trim(authorUsername));
    [PERCENT] + EscapeLike(sanitized) + [PERCENT]
  }

  /** On input without a backslash the written escaping is the complete one. */
  lemma {:induction false} EscapesAgreeWithoutBackslash(s: PhpString)
    requires forall i :: 0 <= i < |s| ==> s[i] != BACKSLASH
    ensures EscapeWildcardsAsWritten(s) == EscapeLike(s)
  {
    EscapeAsWrittenIsByteWise(s);
    EscapeEachAgrees(s);
  }

  lemma {:induction false} EscapeEachAgrees(s: PhpString)
    requires forall i :: 0 <= i < |s| ==> s[i] != BACKSLASH
    ensures EscapeEachWildcard(s) == EscapeLike(s)
  {
    if s != [] {
      assert s[0] != BACKSLASH;
      EscapeEachAgrees(s[1..]);
    }
  }

  // ------------------------------------------- what the pattern matches

  function Literals(s: PhpString): (ts: seq<Token>)
    ensures |ts| == |s|
    ensures forall i {:trigger ts[i]} :: 0 <= i < |s| ==> ts[i] == Literal(s[i])
  {
    seq(|s|, i requires 0 <= i < |s| => Literal(s[i]))
  }

  /** LIKE reads an escaped string followed by '%' as its bytes, literally, then "anything". */
  lemma {:induction false} TokenizeEscaped(s: PhpString)
    ensures Tokenize(EscapeLike(s) + [PERCENT]) == Literals(s) + [AnyBytes]
  {
    if s == [] {
      assert EscapeLike(s) + [PERCENT] == [PERCENT];
      assert Tokenize([PERCENT]) == [AnyBytes] + Tokenize([]);
    } else {
      var rest := EscapeLike(s[1..]) + [PERCENT];
      assert EscapeLike(s) + [PERCENT] == EscapeLikeByte(s[0]) + rest;
      TokenizeEscaped(s[1..]);
      var p := EscapeLikeByte(s[0]) + rest;
      if s[0] == PERCENT || s[0] == UNDERSCORE || s[0] == BACKSLASH {
        assert p[0] == BACKSLASH && p[1] == s[0] && p[2..] == rest;
      } else {
        assert p[0] == s[0] && p[1..] == rest;
      }
      assert Tokenize(p) == [Literal(s[0])] + Tokenize(rest);
      assert Literals(s) + [AnyBytes] == [Literal(s[0])] + (Literals(s[1..]) + [AnyBytes]);
    }
  }

  /** A lone '%' matches every text. */
  lemma {:induction false} AnyBytesMatchesAll(text: PhpString)
    ensures MatchTokens([AnyBytes], text)
  {
    if text != [] {
      AnyBytesMatchesAll(text[1..]);
    }
  }

  /** Literal bytes followed by '%' match exactly the texts they begin. */
  lemma {:induction false} LiteralsThenAnyMatchPrefix(s: PhpString, text: PhpString)
    ensures MatchTokens(Literals(s) + [AnyBytes], text) <==> IsPrefix(s, text)
  {
    if s == [] {
      assert Literals(s) + [AnyBytes] == [AnyBytes];
      AnyBytesMatchesAll(text);
    } else {
      var ts := Literals(s) + [AnyBytes];
      assert ts[0] == Literal(s[0]);
      assert ts[1..] == Literals(s[1..]) + [AnyBytes];
      if |text| > 0 {
        LiteralsThenAnyMatchPrefix(s[1..], text[1..]);
        if IsPrefix(s, text) {
          assert text[1..][..|s| - 1] == s[1..];
        }
        if text[0] == s[0] && IsPrefix(s[1..], text[1..]) {
          assert text[..|s|] == [text[0]] + text[1..][..|s| - 1];
        }
      }
    }
  }

  /** '%', literal bytes, '%' match exactly the texts the bytes occur in. */
  lemma {:induction false} WrappedLiteralsMatchSubstring(s: PhpString, text: PhpString)
    ensures MatchTokens([AnyBytes] + Literals(s) + [AnyBytes], text) <==> IsSubstring(s, text)
    decreases |text|
  {
    var ts := [AnyBytes] + Literals(s) + [AnyBytes];
    assert ts[0] == AnyBytes;
    assert ts[1..] == Literals(s) + [AnyBytes];
    LiteralsThenAnyMatchPrefix(s, text);
    if |text| > 0 {
      WrappedLiteralsMatchSubstring(s, text[1..]);
    }
  }

  /**
   * With the complete escaping, the search finds exactly the usernames that
   * contain the sanitised, trimmed search string: '%', '_' and '\' in it are
   * matched literally.
   */
  lemma SearchPatternMatchesSubstring(lib: Library, authorUsername: PhpString, storedUsername: PhpString)
    ensures Like(storedUsername, SearchPattern(lib, authorUsername))
            <==> IsSubstring(lib.sanitizeString(Trim(authorUsername)), storedUsername)
  {
    var s := lib.sanitizeString(Trim(authorUsername));
    assert SearchPattern(lib, authorUsername) == [PERCENT] + (EscapeLike(s) + [PERCENT]);
    TokenizeEscaped(s);
    assert Tokenize(SearchPattern(lib, authorUsername)) == [AnyBytes] + Literals(s) + [AnyBytes];
    WrappedLiteralsMatchSubstring(s, storedUsername);
  }

  /** When the search string holds no backslash, the pattern as written is the corrected one. */
  lemma SearchPatternAsWrittenWithoutBackslash(lib: Library, authorUsername: PhpString)
    requires forall i :: 0 <= i < |lib.sanitizeString(Trim(authorUsername))| ==>
               lib.sanitizeString(Trim(authorUsername))[i] != BACKSLASH
    ensures SearchPatternAsWritten(lib, authorUsername) == SearchPattern(lib, authorUsername)
  {
    EscapesAgreeWithoutBackslash(lib.sanitizeString(Trim(authorUsername)));
  }

  /**
   * The discrepancy: searching for "a\" (bytes 'a', '\') builds the pattern
   * "%a\%", whose "\%" is a literal '%'. The stored username "a%" matches
   * though it does not contain "a\", and "xa\y", which does, does not match.
   */
  lemma BackslashDefeatsEscaping(lib: Library)
    requires lib.sanitizeString([97, BACKSLASH]) == [97, BACKSLASH]
    ensures Like([97, PERCENT], SearchPatternAsWritten(lib, [97, BACKSLASH]))
    ensures !IsSubstring([97, BACKSLASH], [97, PERCENT])
    ensures IsSubstring([97, BACKSLASH], [120, 97, BACKSLASH, 121])
    ensures !Like([120, 97, BACKSLASH, 121], SearchPatternAsWritten(lib, [97, BACKSLASH]))
  {
    var u: PhpString := [97, BACKSLASH];
    PatternForBackslash(lib);
    var ts := [AnyBytes, Literal(97), Literal(PERCENT)];
    assert MatchTokens(ts[1..], [97, PERCENT]) by {
      assert ts[1..][1..] == [Literal(PERCENT)];
      assert [97, PERCENT][1..] == [PERCENT];
      assert MatchTokens([Literal(PERCENT)], [PERCENT]) by {
        assert [PERCENT][1..] == [];
      }
    }
    assert IsSubstring(u, [120, 97, BACKSLASH, 121]) by {
      var t: PhpString := [120, 97, BACKSLASH, 121];
      assert IsPrefix(u, t[1..]);
    }
    NoMatchWithoutPercent(ts, [120, 97, BACKSLASH, 121]);
    assert !IsSubstring(u, [97, PERCENT]) by {
      var t: PhpString := [97, PERCENT];
      assert t[1..][1..] == [];
      assert !IsSubstring(u, t[1..][1..]);
      assert !IsSubstring(u, t[1..]);
      assert !IsPrefix(u, t);
    }
  }

  /** The search for "a\" builds the pattern "%a\%": any bytes, 'a', then a literal '%'. */
  lemma PatternForBackslash(lib: Library)
    requires lib.sanitizeString([97, BACKSLASH]) == [97, BACKSLASH]
    ensures Tokenize(SearchPatternAsWritten(lib, [97, BACKSLASH])) == [AnyBytes, Literal(97), Literal(PERCENT)]
  {
    var u: PhpString := [97, BACKSLASH];
    assert IsTrimmed(u);
    TrimOfTrimmed(u);
    assert EscapeWildcardsAsWritten(u) == u;
    var p := SearchPatternAsWritten(lib, u);
    assert p == [PERCENT, 97, BACKSLASH, PERCENT];
    assert p[1..] == [97, BACKSLASH, PERCENT] && p[1..][1..] == [BACKSLASH, PERCENT];
    assert Tokenize([BACKSLASH, PERCENT]) == [Literal(PERCENT)];
  }

  /** "%a\%" only matches texts that contain the byte '%'. */
  lemma {:induction false} NoMatchWithoutPercent(ts: seq<Token>, text: PhpString)
    requires ts == [AnyBytes, Literal(97), Literal(PERCENT)]
             || ts == [Literal(97), Literal(PERCENT)] || ts == [Literal(PERCENT)]
    requires forall i :: 0 <= i < |text| ==> text[i] != PERCENT
    ensures !MatchTokens(ts, text)
    decreases |ts|, |text|
  {
    if ts == [AnyBytes, Literal(97), Literal(PERCENT)] {
      assert ts[1..] == [Literal(97), Literal(PERCENT)];
      NoMatchWithoutPercent(ts[1..], text);
      if |text| > 0 {
        NoMatchWithoutPercent(ts, text[1..]);
      }
    } else if ts == [Literal(97), Literal(PERCENT)] {
      assert ts[1..] == [Literal(PERCENT)];
      if |text| > 0 {
        NoMatchWithoutPercent(ts[1..], text[1..]);
      }
    }
  }
}
