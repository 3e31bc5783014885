/** Random slugs: alphabet, shape and generator. */
module Slugs {
  import opened Wrappers

  /** The alphabet, run by run: l, o, I, O, 0 and 1 are left out. */
  const CHARSET: string :=
    "abcdefghijk" + "mn" + "pqrstuvwxyz" + "ABCDEFGH" + "JKLMN" + "PQRSTUVWXYZ" + "23456789"

  const CHARSET_LENGTH: nat := 56
  const SLUG_LENGTH: nat := 12
  const SECRET_LENGTH: nat := 24

  datatype Error = InvalidLength | RandomSource

  predicate IsLetterOrDigit(c: char) {
    'a' <= c <= 'z' || 'A' <= c <= 'Z' || '0' <= c <= '9'
  }

  /** Membership in the alphabet, in closed form. */
  predicate InAlphabet(c: char) {
    IsLetterOrDigit(c) && c != 'l' && c != 'o' && c != 'I' && c != 'O' && c != '0' && c != '1'
  }

  predicate IsSlug(s: string, n: nat) {
    |s| == n && forall i :: 0 <= i < |s| ==> InAlphabet(s[i])
  }

  /** The k-th alphabet character, in closed form. */
  function CharAt(k: nat): (c: char)
    requires k < CHARSET_LENGTH
    ensures InAlphabet(c) && Index(c) == k
  {
    if k < 11 then 'a' + k as char
    else if k < 13 then 'm' + (k - 11) as char
    else if k < 24 then 'p' + (k - 13) as char
    else if k < 32 then 'A' + (k - 24) as char
    else if k < 37 then 'J' + (k - 32) as char
    else if k < 48 then 'P' + (k - 37) as char
    else '2' + (k - 48) as char
  }

  /** Position of an alphabet character. */
  function Index(c: char): (k: nat)
    requires InAlphabet(c)
    ensures k < CHARSET_LENGTH
  {
    var o := c as int;
    if 'a' <= c <= 'k' then o - 'a' as int
    else if 'm' <= c <= 'n' then o - 'm' as int + 11
    else if 'p' <= c <= 'z' then o - 'p' as int + 13
    else if 'A' <= c <= 'H' then o - 'A' as int + 24
    else if 'J' <= c <= 'N' then o - 'J' as int + 32
    else if 'P' <= c <= 'Z' then o - 'P' as int + 37
    else o - '2' as int + 48
  }

  /** The literal alphabet is the closed form. */
  lemma CharsetTable(k: nat)
    requires k < CHARSET_LENGTH
    ensures |CHARSET| == CHARSET_LENGTH && CHARSET[k] == CharAt(k)
  {
  }

  lemma CharAtIndex(c: char)
    requires InAlphabet(c)
    ensures CharAt(Index(c)) == c
  {
  }

  lemma CharsetOnlyAlphabet(c: char)
    requires c in CHARSET
    ensures InAlphabet(c)
  {
    var k :| 0 <= k < |CHARSET| && CHARSET[k] == c;
    CharsetTable(0);
    CharsetTable(k);
  }

  lemma AlphabetInCharset(c: char)
    requires InAlphabet(c)
    ensures c in CHARSET
  {
    CharAtIndex(c);
    CharsetTable(Index(c));
  }

  /** The alphabet has no repeated character and nothing but the closed form's characters. */
  lemma CharsetIsAlphabet(c: char)
    ensures c in CHARSET <==> InAlphabet(c)
  {
    if c in CHARSET { CharsetOnlyAlphabet(c); }
    if InAlphabet(c) { AlphabetInCharset(c); }
  }

  /** The outcomes of the random source: None is a failed read, Some(k) an index into the alphabet. */
  predicate ValidDraws(draws: seq<Option<nat>>) {
    forall i :: 0 <= i < |draws| && draws[i].Some? ==> draws[i].value < CHARSET_LENGTH
  }

  /**
   The generator: `n` draws fill the buffer from left to right; the first failed draw fails the
   call.  A successful result is a slug of length n that spells exactly the drawn indices.
   */
  method New(n: int, draws: seq<Option<nat>>) returns (r: Result<string, Error>)
    requires ValidDraws(draws) && n <= |draws|
    ensures n <= 0 <==> r == Err(InvalidLength)
    ensures n > 0 ==> (r.Ok? <==> forall i :: 0 <= i < n ==> draws[i].Some?)
    ensures r.Ok? ==> IsSlug(r.value, n) && forall i :: 0 <= i < n ==> draws[i] == Some(Index(r.value[i]))
  {
    if n <= 0 {
      return Err(InvalidLength);
    }
    var b := new char[n];
    for i := 0 to n
      invariant forall j :: 0 <= j < i ==> draws[j].Some? && b[j] == CharAt(draws[j].value)
    {
      if draws[i].None? {
        return Err(RandomSource);
      }
      CharsetTable(draws[i].value);
      b[i] := CHARSET[draws[i].value];
    }
    return Ok(b[..]);
  }

  /** Two slugs spelled from the same indices are equal: with New, index vectors and slugs correspond one to one. */
  lemma SlugDeterminesDraws(s: string, t: string, n: nat)
    requires IsSlug(s, n) && IsSlug(t, n)
    requires forall i :: 0 <= i < n ==> Index(s[i]) == Index(t[i])
    ensures s == t
  {
    forall i | 0 <= i < n ensures s[i] == t[i] {
      assert CharAt(Index(s[i])) == s[i];
    }
  }
}
