/** The JavaScript string operations the dashboard and the pipeline builder
    rely on: `trim`, the `\s` class of regular expressions, `toUpperCase`,
    `toLowerCase` and `includes`. Case mapping is modelled for ASCII letters
    only. */
module JsText {
  import opened Wrappers

  /** JavaScript's `s || d` on an optional string: undefined and "" give `d`. */
  function OrDefault(s: Option<string>, d: string): (r: string)
    ensures s.Some? && s.value != "" ==> r == s.value
    ensures s.None? || s.value == "" ==> r == d
  {
    if s.Some? && s.value != "" then s.value else d
  }

  /** ECMAScript WhiteSpace and LineTerminator code points: the set both
      `String.prototype.trim` and the regular-expression class `\s` use. */
  const WhiteSpace: set<char> := {
    '\t', '\n', '\U{000B}', '\U{000C}', '\r', ' ', '\U{00A0}', '\U{1680}',
    '\U{2000}', '\U{2001}', '\U{2002}', '\U{2003}', '\U{2004}', '\U{2005}',
    '\U{2006}', '\U{2007}', '\U{2008}', '\U{2009}', '\U{200A}',
    '\U{2028}', '\U{2029}', '\U{202F}', '\U{205F}', '\U{3000}', '\U{FEFF}' }

  predicate IsWhiteSpace(c: char)
  {
    c in WhiteSpace
  }

  predicate AllWhiteSpace(s: string)
  {
    forall i :: 0 <= i < |s| ==> IsWhiteSpace(s[i])
  }

  /** `trimStart`: drops the leading white space, nothing else. */
  function TrimStart(s: string): (r: string)
    ensures |r| <= |s| && r == s[|s| - |r|..]
    ensures AllWhiteSpace(s[..|s| - |r|])
    ensures r == [] || !IsWhiteSpace(r[0])
  {
    if s == [] || !IsWhiteSpace(s[0]) then s
    else
      var r := TrimStart(s[1..]);
      assert s[..|s| - |r|] == [s[0]] + s[1..][..|s[1..]| - |r|];
      r
  }

  /** `trimEnd`: drops the trailing white space, nothing else. */
  function TrimEnd(s: string): (r: string)
    ensures |r| <= |s| && r == s[..|r|]
    ensures AllWhiteSpace(s[|r|..])
    ensures r == [] || !IsWhiteSpace(r[|r| - 1])
  {
    if s == [] || !IsWhiteSpace(s[|s| - 1]) then s
    else
      var r := TrimEnd(s[..|s| - 1]);
      assert s[|r|..] == s[..|s| - 1][|r|..] + [s[|s| - 1]];
      r
  }

  /** `String.prototype.trim`. */
  function Trim(s: string): string
  {
    TrimEnd(TrimStart(s))
  }

  /** A string trims to "" exactly when it consists of white space only. */
  lemma TrimEmptyIff(s: string)
    ensures Trim(s) == [] <==> AllWhiteSpace(s)
  {
    var t := TrimStart(s);
    if Trim(s) == [] {
      assert AllWhiteSpace(t[0..]);
      assert t == [];
      assert s[..|s|] == s;
    }
  }

  function UpperChar(c: char): char
  {
    if 'a' <= c <= 'z' then (c as int - 32) as char else c
  }

  function LowerChar(c: char): char
  {
    if 'A' <= c <= 'Z' then (c as int + 32) as char else c
  }

  /** `toUpperCase`, letter by letter (ASCII). */
  function ToUpper(s: string): (r: string)
    ensures |r| == |s|
    ensures forall i :: 0 <= i < |s| ==> r[i] == UpperChar(s[i])
  {
    seq(|s|, i requires 0 <= i < |s| => UpperChar(s[i]))
  }

  /** `toLowerCase`, letter by letter (ASCII). */
  function ToLower(s: string): (r: string)
    ensures |r| == |s|
    ensures forall i :: 0 <= i < |s| ==> r[i] == LowerChar(s[i])
  {
    seq(|s|, i requires 0 <= i < |s| => LowerChar(s[i]))
  }

  /** Lower-casing a string without white space leaves no white space and
      no upper-case letter. */
  lemma LowerHasNoUpper(s: string)
    requires forall i :: 0 <= i < |s| ==> !IsWhiteSpace(s[i])
    ensures forall i :: 0 <= i < |s| ==> !IsWhiteSpace(ToLower(s)[i]) && !('A' <= ToLower(s)[i] <= 'Z')
  {
    forall i | 0 <= i < |s| ensures !IsWhiteSpace(ToLower(s)[i]) && !('A' <= ToLower(s)[i] <= 'Z') {
      assert ToLower(s)[i] == LowerChar(s[i]);
    }
  }

  /** Upper-casing forgets whether the input was lower-cased first. */
  lemma UpperOfLower(s: string)
    ensures ToUpper(ToLower(s)) == ToUpper(s)
  {
    forall i | 0 <= i < |s|
      ensures ToUpper(ToLower(s))[i] == ToUpper(s)[i]
    {
    }
  }

  /** Upper-casing twice is upper-casing once. */
  lemma UpperTwice(s: string)
    ensures ToUpper(ToUpper(s)) == ToUpper(s)
  {
    forall i | 0 <= i < |s|
      ensures ToUpper(ToUpper(s))[i] == ToUpper(s)[i]
    {
    }
  }

  /** Lower-casing twice is lower-casing once. */
  lemma LowerTwice(s: string)
    ensures ToLower(ToLower(s)) == ToLower(s)
  {
    forall i | 0 <= i < |s|
      ensures ToLower(ToLower(s))[i] == ToLower(s)[i]
    {
    }
  }

  /** Lower-casing forgets whether the input was upper-cased first. */
  lemma LowerOfUpper(s: string)
    ensures ToLower(ToUpper(s)) == ToLower(s)
  {
    forall i | 0 <= i < |s|
      ensures ToLower(ToUpper(s))[i] == ToLower(s)[i]
    {
    }
  }

  /** `t` occurs in `s` starting at position `i`. */
  predicate OccursAt(s: string, t: string, i: int)
  {
    0 <= i && i + |t| <= |s| && s[i..i + |t|] == t
  }

  /** `String.prototype.includes`: `t` occurs somewhere in `s`. */
  function Contains(s: string, t: string): (b: bool)
    ensures b <==> exists i :: OccursAt(s, t, i)
    decreases |s|
  {
    if |t| > |s| then false
    else if s[..|t|] == t then
      assert OccursAt(s, t, 0);
      true
    else if s == [] then false
    else
      var b := Contains(s[1..], t);
      assert forall i :: OccursAt(s[1..], t, i) <==> OccursAt(s, t, i + 1) by {
        forall i ensures OccursAt(s[1..], t, i) <==> OccursAt(s, t, i + 1) {
          if 0 <= i && i + |t| <= |s[1..]| {
            assert s[1..][i..i + |t|] == s[i + 1..i + 1 + |t|];
          }
        }
      }
      assert forall i :: OccursAt(s, t, i) ==> i == 0 || OccursAt(s[1..], t, i - 1);
      b
  }

  /** The empty string occurs in every string: an empty search query matches. */
  lemma ContainsEmpty(s: string)
    ensures Contains(s, [])
  {
    assert OccursAt(s, [], 0);
  }

  /** `s.replace(/\s+/g, "-")`: every maximal run of white space becomes one
      hyphen. */
  function HyphenateWhiteSpace(s: string): (r: string)
    ensures |r| <= |s|
    ensures forall i :: 0 <= i < |r| ==> !IsWhiteSpace(r[i])
    decreases |s|
  {
    if s == [] then []
    else if IsWhiteSpace(s[0]) then
      var rest := TrimStart(s);
      "-" + HyphenateWhiteSpace(rest)
    else [s[0]] + HyphenateWhiteSpace(s[1..])
  }

  /** A string without white space is left as it is. */
  lemma {:induction false} HyphenateIdentity(s: string)
    requires forall i :: 0 <= i < |s| ==> !IsWhiteSpace(s[i])
    ensures HyphenateWhiteSpace(s) == s
    decreases |s|
  {
    if s != [] {
      HyphenateIdentity(s[1..]);
      assert s == [s[0]] + s[1..];
    }
  }

  /** A leading non-white-space character is copied. */
  lemma HyphenateCopies(s: string)
    requires s != [] && !IsWhiteSpace(s[0])
    ensures HyphenateWhiteSpace(s) == [s[0]] + HyphenateWhiteSpace(s[1..])
  {
  }

  /** A run of non-white-space characters passes through unchanged. */
  lemma {:induction false} HyphenateKeepsWord(w: string, rest: string)
    requires forall i :: 0 <= i < |w| ==> !IsWhiteSpace(w[i])
    ensures HyphenateWhiteSpace(w + rest) == w + HyphenateWhiteSpace(rest)
    decreases |w|
  {
    if w == [] {
      assert w + rest == rest;
    } else {
      var s := w + rest;
      assert s[0] == w[0] && s[1..] == w[1..] + rest;
      HyphenateCopies(s);
      HyphenateKeepsWord(w[1..], rest);
      assert [w[0]] + (w[1..] + HyphenateWhiteSpace(rest)) == w + HyphenateWhiteSpace(rest);
    }
  }

  /** Lower-casing works character by character, so it distributes over
      concatenation. */
  lemma LowerAppend(a: string, b: string)
    ensures ToLower(a + b) == ToLower(a) + ToLower(b)
  {
    forall i | 0 <= i < |a + b| ensures ToLower(a + b)[i] == (ToLower(a) + ToLower(b))[i] {
      if i < |a| { assert (a + b)[i] == a[i]; } else { assert (a + b)[i] == b[i - |a|]; }
    }
  }

  /** `trimStart` drops exactly a leading white-space run. */
  lemma {:induction false} TrimStartRun(ws: string, rest: string)
    requires AllWhiteSpace(ws)
    requires rest == [] || !IsWhiteSpace(rest[0])
    ensures TrimStart(ws + rest) == rest
    decreases |ws|
  {
    if ws == [] {
      assert ws + rest == rest;
    } else {
      var s := ws + rest;
      assert s[0] == ws[0] && s[1..] == ws[1..] + rest;
      TrimStartRun(ws[1..], rest);
    }
  }

  /** A maximal run of white space, however long, becomes one hyphen. */
  lemma HyphenateRun(ws: string, rest: string)
    requires ws != [] && AllWhiteSpace(ws)
    requires rest == [] || !IsWhiteSpace(rest[0])
    ensures HyphenateWhiteSpace(ws + rest) == "-" + HyphenateWhiteSpace(rest)
  {
    var s := ws + rest;
    assert s[0] == ws[0];
    TrimStartRun(ws, rest);
  }

  /** Two words with white space between them are joined by one hyphen. */
  lemma HyphenateJoinsWords(w1: string, ws: string, w2: string)
    requires forall i :: 0 <= i < |w1| ==> !IsWhiteSpace(w1[i])
    requires forall i :: 0 <= i < |w2| ==> !IsWhiteSpace(w2[i])
    requires ws != [] && AllWhiteSpace(ws)
    ensures HyphenateWhiteSpace(w1 + (ws + w2)) == w1 + ("-" + w2)
  {
    HyphenateKeepsWord(w1, ws + w2);
    HyphenateRun(ws, w2);
    HyphenateIdentity(w2);
  }
}
