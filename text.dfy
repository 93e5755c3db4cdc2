/** The pieces of Python's `str` behaviour that the codec relies on:
    `strip`, `lstrip`/`rstrip` with a character set, `startswith`, `lower`,
    `replace` of one character, `join`, and the f-string text of a cell. */
module Text {

  /** The characters `str.isspace` accepts, which are those `str.strip()` removes. */
  predicate IsSpace(c: char) {
    || ('\t' <= c <= '\r')                    // tab, LF, VT, FF, CR
    || ('\U{1c}' <= c <= '\U{1f}')            // file, group, record and unit separators
    || c == ' ' || c == '\U{85}' || c == '\U{a0}' || c == '\U{1680}'
    || ('\U{2000}' <= c <= '\U{200a}')
    || c == '\U{2028}' || c == '\U{2029}' || c == '\U{202f}' || c == '\U{205f}' || c == '\U{3000}'
  }

  predicate IsQuote(c: char) {
    c == '"'
  }

  /** `s.lstrip(chars)`: drops the longest prefix made of dropped characters. */
  function LStrip(s: string, drop: char -> bool): (r: string)
    ensures |r| <= |s| && r == s[|s| - |r|..]
    ensures forall i :: 0 <= i < |s| - |r| ==> drop(s[i])
    ensures r == [] || !drop(r[0])
  {
    if s != [] && drop(s[0]) then
      var r := LStrip(s[1..], drop);
      assert s[1..][|s| - 1 - |r|..] == s[|s| - |r|..];
      r
    else s
  }

  /** `s.rstrip(chars)`: drops the longest suffix made of dropped characters. */
  function RStrip(s: string, drop: char -> bool): (r: string)
    ensures |r| <= |s| && r == s[..|r|]
    ensures forall i :: |r| <= i < |s| ==> drop(s[i])
    ensures r == [] || !drop(r[|r| - 1])
  {
    if s != [] && drop(s[|s| - 1]) then
      var r := RStrip(s[..|s| - 1], drop);
      assert s[..|s| - 1][..|r|] == s[..|r|];
      r
    else s
  }

  /** `s.strip()`. */
  function Strip(s: string): string {
    RStrip(LStrip(s, IsSpace), IsSpace)
  }

  /** `s.lstrip('"').rstrip('"')`. */
  function StripQuotes(s: string): string {
    RStrip(LStrip(s, IsQuote), IsQuote)
  }

  /** What stripping keeps neither starts nor ends with a dropped character. */
  lemma StripEnds(s: string, drop: char -> bool)
    ensures var r := RStrip(LStrip(s, drop), drop); r == [] || (!drop(r[0]) && !drop(r[|r| - 1]))
  {
    var l := LStrip(s, drop);
    var r := RStrip(l, drop);
    if r != [] {
      assert r[0] == l[0];
    }
  }

  /** A string that neither starts nor ends with a dropped character is left alone. */
  lemma {:induction false} StripUnchanged(s: string, drop: char -> bool)
    requires s == [] || (!drop(s[0]) && !drop(s[|s| - 1]))
    ensures RStrip(LStrip(s, drop), drop) == s
  {
  }

  /** Stripping twice is stripping once. */
  lemma {:induction false} StripIdempotent(s: string, drop: char -> bool)
    ensures var r := RStrip(LStrip(s, drop), drop); RStrip(LStrip(r, drop), drop) == r
  {
    StripEnds(s, drop);
  }

  /** A line strips to nothing exactly when every character of it is white space. */
  lemma StripEmptyIff(s: string)
    ensures Strip(s) == [] <==> forall i :: 0 <= i < |s| ==> IsSpace(s[i])
  {
    var l := LStrip(s, IsSpace);
    var d := |s| - |l|;
    if Strip(s) != [] {
      var r := Strip(s);
      StripEnds(s, IsSpace);
      assert r[0] == l[0] == s[d];
    }
  }

  /** `str.lower()` on ASCII letters. */
  function LowerChar(c: char): char {
    if 'A' <= c <= 'Z' then (c as int - 'A' as int + 'a' as int) as char else c
  }

  /** `s.lower()`: the same length, no upper-case ASCII letter left, every other
      character kept. */
  function Lower(s: string): (r: string)
    ensures |r| == |s|
    ensures forall i :: 0 <= i < |r| ==> !('A' <= r[i] <= 'Z')
    ensures forall i :: 0 <= i < |s| && !('A' <= s[i] <= 'Z') ==> r[i] == s[i]
  {
    seq(|s|, i requires 0 <= i < |s| => LowerChar(s[i]))
  }

  /** `s.replace(c, rep)` for a one-character `c`. */
  function Replace(s: string, c: char, rep: string): (r: string)
    ensures c !in rep ==> c !in r
    ensures c !in s ==> r == s
  {
    if s == [] then [] else (if s[0] == c then rep else [s[0]]) + Replace(s[1..], c, rep)
  }

  lemma {:induction false} ReplaceConcat(a: string, b: string, c: char, rep: string)
    ensures Replace(a + b, c, rep) == Replace(a, c, rep) + Replace(b, c, rep)
  {
    if a == [] {
      assert a + b == b;
    } else {
      assert (a + b)[0] == a[0];
      assert (a + b)[1..] == a[1..] + b;
      ReplaceConcat(a[1..], b, c, rep);
    }
  }

  /** The three raw characters a JSON text may not carry inside a string. */
  predicate IsControl(c: char) {
    c == '\t' || c == '\r' || c == '\n'
  }

  predicate NoControls(s: string) {
    forall i :: 0 <= i < |s| ==> !IsControl(s[i])
  }

  /** The backslash escape of one character, or the character itself. */
  function EscapeChar(c: char): string {
    if c == '\t' then "\\t" else if c == '\r' then "\\r" else if c == '\n' then "\\n" else [c]
  }

  /** A single-pass reference definition of the JSON escape of tab, CR and LF. */
  function EscapeControls(s: string): string {
    if s == [] then [] else EscapeChar(s[0]) + EscapeControls(s[1..])
  }

  /** The escape leaves no raw tab, CR or LF, and leaves a text without them
      as it is. */
  lemma {:induction false} EscapeControlsClean(s: string)
    ensures NoControls(EscapeControls(s))
    ensures NoControls(s) ==> EscapeControls(s) == s
  {
    if s != [] {
      EscapeControlsClean(s[1..]);
      NoControlsConcat(EscapeChar(s[0]), EscapeControls(s[1..]));
      if NoControls(s) {
        assert NoControls(s[1..]) by {
          forall i | 0 <= i < |s[1..]| ensures !IsControl(s[1..][i]) {
            assert s[1..][i] == s[i + 1];
          }
        }
        assert s == [s[0]] + s[1..];
      }
    }
  }

  /** The three replacements on one character give its escape. */
  lemma ReplaceChainChar(c: char)
    ensures Replace(Replace(Replace([c], '\t', "\\t"), '\r', "\\r"), '\n', "\\n") == EscapeChar(c)
  {
    var a := Replace([c], '\t', "\\t");
    assert [c][1..] == [];
    if c == '\t' {
      assert a == "\\t";
      assert Replace(a, '\r', "\\r") == "\\t";
    } else {
      assert a == [c];
      var b := Replace(a, '\r', "\\r");
      if c == '\r' {
        assert b == "\\r";
      } else {
        assert b == [c];
      }
    }
  }

  /** The reader's three successive `replace` calls (tab, then CR, then LF)
      produce the one-pass escape: no replacement introduces a character that a
      later one rewrites. */
  lemma {:induction false} ReplaceChainIsEscape(s: string)
    ensures Replace(Replace(Replace(s, '\t', "\\t"), '\r', "\\r"), '\n', "\\n") == EscapeControls(s)
  {
    if s != [] {
      var h, t := [s[0]], s[1..];
      assert s == h + t;
      ReplaceConcat(h, t, '\t', "\\t");
      var a, b := Replace(h, '\t', "\\t"), Replace(t, '\t', "\\t");
      ReplaceConcat(a, b, '\r', "\\r");
      ReplaceConcat(Replace(a, '\r', "\\r"), Replace(b, '\r', "\\r"), '\n', "\\n");
      ReplaceChainIsEscape(t);
      ReplaceChainChar(s[0]);
    }
  }

  /** `s.replace("\t", "\\t").replace("\r", "\\r").replace("\n", "\\n")`. */
  method ReplaceControls(s: string) returns (r: string)
    ensures r == EscapeControls(s)
  {
    ReplaceChainIsEscape(s);
    r := Replace(s, '\t', "\\t");
    r := Replace(r, '\r', "\\r");
    r := Replace(r, '\n', "\\n");
  }

  lemma {:induction false} EscapeConcat(a: string, b: string)
    ensures EscapeControls(a + b) == EscapeControls(a) + EscapeControls(b)
  {
    if a == [] {
      assert a + b == b;
    } else {
      assert (a + b)[0] == a[0];
      assert (a + b)[1..] == a[1..] + b;
      EscapeConcat(a[1..], b);
    }
  }

  lemma NoControlsConcat(a: string, b: string)
    requires NoControls(a) && NoControls(b)
    ensures NoControls(a + b)
  {
    assert forall i :: |a| <= i < |a + b| ==> (a + b)[i] == b[i - |a|];
  }

  /** `sep.join(xs)`. */
  function Join(sep: string, xs: seq<string>): string {
    if xs == [] then [] else if |xs| == 1 then xs[0] else xs[0] + sep + Join(sep, xs[1..])
  }

  /** Joining pieces free of tab, CR and LF with a separator free of them gives
      a text free of them. */
  lemma {:induction false} JoinNoControls(sep: string, xs: seq<string>)
    requires NoControls(sep)
    requires forall i :: 0 <= i < |xs| ==> NoControls(xs[i])
    ensures NoControls(Join(sep, xs))
  {
    if |xs| > 1 {
      JoinNoControls(sep, xs[1..]);
      NoControlsConcat(xs[0], sep);
      NoControlsConcat(xs[0] + sep, Join(sep, xs[1..]));
    }
  }

  /** `f'"{s}"'`: no escaping of the inner characters. */
  function Quote(s: string): string {
    "\"" + s + "\""
  }

  /** The key part `"name":` of a JSON member. */
  function Key(name: string): string {
    "\"" + name + "\":"
  }

  /** `a` occurs in `b` as a contiguous piece. */
  predicate IsInfix(a: string, b: string) {
    exists i :: 0 <= i <= |b| && a <= b[i..]
  }

  lemma InfixOfConcat(x: string, a: string, y: string)
    ensures IsInfix(a, x + a + y)
  {
    assert (x + a + y)[|x|..] == a + y;
  }
}
