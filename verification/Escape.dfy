/** htmlEscape of the bucket page, and the entity decoder that undoes it. */
module Escape {
  function EscapeRune(c: char): string {
    if c == '&' then "&amp;"
    else if c == '<' then "&lt;"
    else if c == '>' then "&gt;"
    else if c == '\"' then "&#34;"
    else if c == '\'' then "&#39;"
    else [c]
  }

  function EscapeAll(s: string): string {
    if s == [] then [] else EscapeRune(s[0]) + EscapeAll(s[1..])
  }

  lemma EscapeCons(c: char, tail: string)
    ensures EscapeAll([c] + tail) == EscapeRune(c) + EscapeAll(tail)
  {
    assert ([c] + tail)[1..] == tail;
  }

  lemma Associates(x: string, y: string, z: string)
    ensures x + (y + z) == x + y + z
  {
  }

  lemma HeadAndTail(a: string, b: string)
    requires a != []
    ensures a == [a[0]] + a[1..] && a + b == [a[0]] + (a[1..] + b)
  {
  }

  lemma {:induction false} Distributes(a: string, b: string)
    ensures EscapeAll(a + b) == EscapeAll(a) + EscapeAll(b)
  {
    if a == [] {
      assert a + b == b;
    } else {
      Distributes(a[1..], b);
      HeadAndTail(a, b);
      EscapeCons(a[0], a[1..]);
      EscapeCons(a[0], a[1..] + b);
      Associates(EscapeRune(a[0]), EscapeAll(a[1..]), EscapeAll(b));
    }
  }

  /** The rune loop over a growing buffer. */
  method HtmlEscape(s: string) returns (buf: string)
    ensures buf == EscapeAll(s)
  {
    buf := "";
    for i := 0 to |s|
      invariant buf == EscapeAll(s[..i])
    {
      Distributes(s[..i], [s[i]]);
      assert s[..i + 1] == s[..i] + [s[i]];
      match s[i]
      case '&' => buf := buf + "&amp;";
      case '<' => buf := buf + "&lt;";
      case '>' => buf := buf + "&gt;";
      case '\"' => buf := buf + "&#34;";
      case '\'' => buf := buf + "&#39;";
      case c => buf := buf + [c];
    }
    assert s[..|s|] == s;
  }

  /** The five entities and their characters. */
  function Entity(s: string): (char, nat) {
    if "&amp;" <= s then ('&', 5)
    else if "&lt;" <= s then ('<', 4)
    else if "&gt;" <= s then ('>', 4)
    else if "&#34;" <= s then ('\"', 5)
    else if "&#39;" <= s then ('\'', 5)
    else (' ', 0)
  }

  /** A decoder that replaces each of the five entities and keeps everything else. */
  function Decode(s: string): string {
    if s == [] then []
    else
      var (c, n) := Entity(s);
      if n > 0 then [c] + Decode(s[n..]) else [s[0]] + Decode(s[1..])
  }

  /** One escaped rune is read back as that rune, whatever follows. */
  lemma EntityOfRune(c: char, rest: string)
    ensures var s := EscapeRune(c) + rest;
            if c in "&<>\"\'" then Entity(s) == (c, |EscapeRune(c)|) else Entity(s).1 == 0 && s[0] == c
    ensures (EscapeRune(c) + rest)[|EscapeRune(c)|..] == rest
  {
    var s := EscapeRune(c) + rest;
    assert s[0] == (if c in "&<>\"\'" then '&' else c);
    if c in "&<>\"\'" {
      assert EscapeRune(c) <= s;
      assert s[1] == EscapeRune(c)[1] && s[2] == EscapeRune(c)[2] && s[3] == EscapeRune(c)[3];
    }
  }

  /** htmlEscape is invertible on every rune sequence. */
  lemma {:induction false} DecodeEscape(s: string)
    ensures Decode(EscapeAll(s)) == s
  {
    if s != [] {
      EntityOfRune(s[0], EscapeAll(s[1..]));
      DecodeEscape(s[1..]);
      assert s == [s[0]] + s[1..];
    }
  }

  /** Escaping is injective: two names that look the same on the page are the same. */
  lemma EscapeIsInjective(a: string, b: string)
    requires EscapeAll(a) == EscapeAll(b)
    ensures a == b
  {
    DecodeEscape(a);
    DecodeEscape(b);
  }

  /** Character i of s is harmless: no raw angle bracket or quote, and an ampersand starts an entity. */
  predicate HarmlessAt(s: string, i: nat)
    requires i < |s|
  {
    s[i] !in "<>\"\'" && (s[i] == '&' ==> Entity(s[i..]).1 > 0)
  }

  lemma HeadIsHarmless(c: char, tail: string, i: nat)
    requires i < |EscapeRune(c)|
    ensures HarmlessAt(EscapeRune(c) + tail, i)
  {
    var s := EscapeRune(c) + tail;
    EntityOfRune(c, tail);
    assert s[i] == EscapeRune(c)[i];
    if i == 0 { assert s[0..] == s; }
  }

  lemma TailIsHarmless(head: string, tail: string, i: nat)
    requires i < |tail| && HarmlessAt(tail, i)
    ensures HarmlessAt(head + tail, |head| + i)
  {
    assert (head + tail)[|head| + i..] == tail[i..];
  }

  /** The output has no raw bracket or quote, and no ampersand that does not start an entity. */
  lemma {:induction false} OutputIsHarmless(s: string, i: nat)
    requires i < |EscapeAll(s)|
    ensures HarmlessAt(EscapeAll(s), i)
  {
    var head, tail := EscapeRune(s[0]), EscapeAll(s[1..]);
    if i < |head| {
      HeadIsHarmless(s[0], tail, i);
    } else {
      OutputIsHarmless(s[1..], i - |head|);
      TailIsHarmless(head, tail, i - |head|);
    }
  }
}
