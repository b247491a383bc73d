/**
 * PHP byte strings and the few string built-ins the Author record relies on:
 * trim(), strtolower(), ctype_xdigit(), empty() on a string, and str_replace()
 * with a one-byte search string.
 */
module PhpStrings {

  /** One byte of a PHP string. */
  newtype byte = x: int | 0 <= x < 256

  /** A PHP string is a sequence of bytes; strlen() is its length. */
  type PhpString = seq<byte>

  // ---------------------------------------------------------------- trim()

  /** The bytes trim() strips when given no character list: " \t\n\r\0\x0B". */
  predicate IsTrimmable(b: byte) {
    b == 32 || b == 9 || b == 10 || b == 13 || b == 0 || b == 11
  }

  /** Neither end of s is a byte that trim() would strip. */
  predicate IsTrimmed(s: PhpString) {
    s == [] || (!IsTrimmable(s[0]) && !IsTrimmable(s[|s| - 1]))
  }

  /** Where the bytes kept by trim() start: the first byte at or after i that is not trimmable. */
  function TrimStart(s: PhpString, i: nat): (n: nat)
    requires i <= |s|
    ensures i <= n <= |s|
    ensures forall k :: i <= k < n ==> IsTrimmable(s[k])
    ensures n < |s| ==> !IsTrimmable(s[n])
    decreases |s| - i
  {
    if i < |s| && IsTrimmable(s[i]) then TrimStart(s, i + 1) else i
  }

  /** Where the bytes kept by trim() end: just after the last byte before j, and not before lo, that is not trimmable. */
  function TrimEnd(s: PhpString, lo: nat, j: nat): (n: nat)
    requires lo <= j <= |s|
    ensures lo <= n <= j
    ensures forall k :: n <= k < j ==> IsTrimmable(s[k])
    ensures n > lo ==> !IsTrimmable(s[n - 1])
    decreases j
  {
    if j > lo && IsTrimmable(s[j - 1]) then TrimEnd(s, lo, j - 1) else j
  }

  /** trim(): strips the trimmable bytes at both ends; what is left begins and ends with a byte trim() keeps. */
  function Trim(s: PhpString): (r: PhpString)
    ensures IsTrimmed(r) && |r| <= |s|
  {
    var i := TrimStart(s, 0);
    s[i..TrimEnd(s, i, |s|)]
  }

  /**
   * trim() keeps the middle part of s that starts at the first byte it does
   * not strip, and every byte it drops at either end is trimmable.
   */
  lemma TrimKeepsMiddle(s: PhpString)
    ensures var i := TrimStart(s, 0);
            && i + |Trim(s)| <= |s|
            && (forall k :: 0 <= k < |Trim(s)| ==> Trim(s)[k] == s[i + k])
            && (forall k :: 0 <= k < i ==> IsTrimmable(s[k]))
            && (forall k :: i + |Trim(s)| <= k < |s| ==> IsTrimmable(s[k]))
  {
    var i := TrimStart(s, 0);
    assert Trim(s) == s[i..TrimEnd(s, i, |s|)];
  }

  /** A string with no trimmable byte at either end is its own trim(). */
  lemma TrimOfTrimmed(s: PhpString)
    requires IsTrimmed(s)
    ensures Trim(s) == s
  {
    assert TrimStart(s, 0) == 0;
    assert TrimEnd(s, 0, |s|) == |s|;
  }

  /** trim() is idempotent. */
  lemma TrimIdempotent(s: PhpString)
    ensures Trim(Trim(s)) == Trim(s)
  {
    TrimOfTrimmed(Trim(s));
  }

  // ----------------------------------------------------------- strtolower()

  predicate IsUpperAscii(b: byte) { 65 <= b <= 90 }

  /** strtolower() on one byte: ASCII 'A'..'Z' become 'a'..'z', every other byte is kept. */
  function LowerByte(b: byte): (r: byte)
    ensures !IsUpperAscii(r)
    ensures IsUpperAscii(b) ==> r as int == b as int + 32
    ensures !IsUpperAscii(b) ==> r == b
  {
    if IsUpperAscii(b) then b + 32 else b
  }

  /** strtolower(): byte-wise ASCII lower-casing, same length. */
  function ToLower(s: PhpString): (r: PhpString)
    ensures |r| == |s|
    ensures forall i {:trigger r[i]} :: 0 <= i < |s| ==> r[i] == LowerByte(s[i])
  {
    seq(|s|, i requires 0 <= i < |s| => LowerByte(s[i]))
  }

  // ---------------------------------------------------------- ctype_xdigit()

  predicate IsDigitAscii(b: byte) { 48 <= b <= 57 }

  /** A byte of [0-9A-Fa-f]. */
  predicate IsXDigit(b: byte) {
    IsDigitAscii(b) || 65 <= b <= 70 || 97 <= b <= 102
  }

  /** A byte of [0-9a-f]. */
  predicate IsLowerXDigit(b: byte) {
    IsDigitAscii(b) || 97 <= b <= 102
  }

  /** ctype_xdigit(): true of a non-empty string made only of hexadecimal digits. */
  predicate CtypeXdigit(s: PhpString): (r: bool)
    ensures r ==> |s| > 0
    ensures |s| > 0 && (forall i :: 0 <= i < |s| ==> IsLowerXDigit(s[i])) ==> r
  {
    |s| > 0 && forall i :: 0 <= i < |s| ==> IsXDigit(s[i])
  }

  // --------------------------------------------------------------- empty()

  /** empty() on a string: true of "" and of "0". */
  predicate IsPhpEmpty(s: PhpString): (r: bool)
    ensures r <==> |s| < 2 && forall i :: 0 <= i < |s| ==> s[i] == 48
  {
    s == [] || s == [48]
  }

  // ---------------------------------------------------------- str_replace()

  /**
   * str_replace(search, replace, subject) for a one-byte search string: every
   * occurrence of the byte is replaced, left to right; the replacement text is
   * not searched again.
   */
  function StrReplace(subject: PhpString, search: byte, replace: PhpString): (r: PhpString)
    ensures (forall i :: 0 <= i < |subject| ==> subject[i] != search) ==> r == subject
    ensures |replace| >= 1 ==> |r| >= |subject|
  {
    if subject == [] then []
    else (if subject[0] == search then replace else [subject[0]])
         + StrReplace(subject[1..], search, replace)
  }

  /** str_replace() with a one-byte search works on each part of a concatenation separately. */
  lemma {:induction false} StrReplaceAppend(a: PhpString, b: PhpString, search: byte, replace: PhpString)
    ensures StrReplace(a + b, search, replace) == StrReplace(a, search, replace) + StrReplace(b, search, replace)
  {
    if a != [] {
      var head := if a[0] == search then replace else [a[0]];
      assert (a + b)[0] == a[0];
      assert (a + b)[1..] == a[1..] + b;
      assert StrReplace(a + b, search, replace) == head + StrReplace(a[1..] + b, search, replace);
      StrReplaceAppend(a[1..], b, search, replace);
      assert StrReplace(a, search, replace) == head + StrReplace(a[1..], search, replace);
    } else {
      assert a + b == b;
    }
  }
}
