/** The one string transformation of the DOM-rasterisation hook: `escapeXhtml`,
    which makes serialised XHTML safe to embed in an SVG data URL by
    percent-encoding `#` and line feeds. */
module Rasterize {

  /** `s.replace(/c/g, r)`: every occurrence of `c`, left to right, becomes `r`. */
  function ReplaceAll(s: string, c: char, r: string): string
  {
    if s == [] then [] else (if s[0] == c then r else [s[0]]) + ReplaceAll(s[1..], c, r)
  }

  /** `escapeXhtml`: two chained global replaces, `#` first, then `\n`. */
  function EscapeXhtml(s: string): string
  {
    ReplaceAll(ReplaceAll(s, '#', "%23"), '\n', "%0A")
  }

  /** Reference definition: each character is escaped on its own. */
  function EscapeChar(c: char): string
  {
    if c == '#' then "%23" else if c == '\n' then "%0A" else [c]
  }

  function EscapeEach(s: string): string
  {
    if s == [] then [] else EscapeChar(s[0]) + EscapeEach(s[1..])
  }

  function Count(s: string, c: char): nat
  {
    if s == [] then 0 else (if s[0] == c then 1 else 0) + Count(s[1..], c)
  }

  lemma {:induction false} ReplaceAllAppend(a: string, b: string, c: char, r: string)
    ensures ReplaceAll(a + b, c, r) == ReplaceAll(a, c, r) + ReplaceAll(b, c, r)
  {
    if a == [] {
      assert a + b == b;
    } else {
      assert (a + b)[0] == a[0];
      assert (a + b)[1..] == a[1..] + b;
      ReplaceAllAppend(a[1..], b, c, r);
    }
  }

  lemma {:induction false} ReplaceAllAbsent(s: string, c: char, r: string)
    requires c !in s
    ensures ReplaceAll(s, c, r) == s
  {
    if s != [] {
      assert c !in s[1..];
      ReplaceAllAbsent(s[1..], c, r);
    }
  }

  /** The chained replaces escape each character independently: the output is
      the concatenation of `EscapeChar` over the input, in order. */
  lemma {:induction false} EscapeXhtmlIsCharwise(s: string)
    ensures EscapeXhtml(s) == EscapeEach(s)
  {
    if s != [] {
      var head := if s[0] == '#' then "%23" else [s[0]];
      assert ReplaceAll(s, '#', "%23") == head + ReplaceAll(s[1..], '#', "%23");
      ReplaceAllAppend(head, ReplaceAll(s[1..], '#', "%23"), '\n', "%0A");
      if s[0] == '#' {
        ReplaceAllAbsent("%23", '\n', "%0A");
      } else if s[0] == '\n' {
        assert ReplaceAll(head, '\n', "%0A") == "%0A" + ReplaceAll([], '\n', "%0A");
      } else {
        assert ReplaceAll(head, '\n', "%0A") == [s[0]] + ReplaceAll([], '\n', "%0A");
      }
      EscapeXhtmlIsCharwise(s[1..]);
    }
  }

  lemma {:induction false} EscapeEachClean(s: string)
    ensures '#' !in EscapeEach(s) && '\n' !in EscapeEach(s)
  {
    if s != [] {
      EscapeEachClean(s[1..]);
      assert EscapeEach(s) == EscapeChar(s[0]) + EscapeEach(s[1..]);
    }
  }

  /** The escaped text contains neither `#` nor a line feed. */
  lemma EscapeXhtmlClean(s: string)
    ensures '#' !in EscapeXhtml(s) && '\n' !in EscapeXhtml(s)
  {
    EscapeXhtmlIsCharwise(s);
    EscapeEachClean(s);
  }

  lemma {:induction false} EscapeEachIdentity(s: string)
    requires '#' !in s && '\n' !in s
    ensures EscapeEach(s) == s
  {
    if s != [] {
      assert s == [s[0]] + s[1..];
      EscapeEachIdentity(s[1..]);
    }
  }

  /** Escaping twice is escaping once: `%` is left alone, so nothing produced
      by the first pass is touched by the second. */
  lemma EscapeXhtmlIdempotent(s: string)
    ensures EscapeXhtml(EscapeXhtml(s)) == EscapeXhtml(s)
  {
    var t := EscapeXhtml(s);
    EscapeXhtmlClean(s);
    EscapeXhtmlIsCharwise(t);
    EscapeEachIdentity(t);
  }

  /** Because `%` itself is not escaped, a literal "%23" and a `#` escape to the
      same text: the escaping cannot be undone. */
  lemma EscapeXhtmlNotInjective()
    ensures "#" != "%23" && EscapeXhtml("#") == EscapeXhtml("%23")
  {
    EscapeXhtmlIsCharwise("#");
    EscapeXhtmlIsCharwise("%23");
    assert EscapeEach("%23") == "%" + EscapeEach("23");
    assert EscapeEach("23") == "2" + EscapeEach("3");
  }

  lemma {:induction false} EscapeEachLength(s: string)
    ensures |EscapeEach(s)| == |s| + 2 * (Count(s, '#') + Count(s, '\n'))
  {
    if s != [] {
      EscapeEachLength(s[1..]);
    }
  }

  /** Each escaped character grows the text by exactly two characters. */
  lemma EscapeXhtmlLength(s: string)
    ensures |EscapeXhtml(s)| == |s| + 2 * (Count(s, '#') + Count(s, '\n'))
  {
    EscapeXhtmlIsCharwise(s);
    EscapeEachLength(s);
  }
}
