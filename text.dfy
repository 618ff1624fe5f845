/**
 * The two Python string builtins the score extractor relies on:
 * `str.splitlines()`, which cuts the model's reply into lines, and
 * `str.strip()`, which removes the whitespace around a label.
 */
module Text {

  /** The characters at which `str.splitlines()` ends a line ("\r\n" counts as one boundary). */
  predicate IsLineBreak(c: char) {
    c == '\n' || c == '\r' || c == '\U{0B}' || c == '\U{0C}' ||
    c == '\U{1C}' || c == '\U{1D}' || c == '\U{1E}' || c == '\U{85}' ||
    c == '\U{2028}' || c == '\U{2029}'
  }

  /** The characters for which `str.isspace()` holds; `str.strip()` removes these. */
  predicate IsSpace(c: char) {
    c == '\t' || c == '\n' || c == '\U{0B}' || c == '\U{0C}' || c == '\r' ||
    c == '\U{1C}' || c == '\U{1D}' || c == '\U{1E}' || c == '\U{1F}' || c == ' ' ||
    c == '\U{85}' || c == '\U{A0}' || c == '\U{1680}' ||
    ('\U{2000}' <= c <= '\U{200A}') ||
    c == '\U{2028}' || c == '\U{2029}' || c == '\U{202F}' || c == '\U{205F}' ||
    c == '\U{3000}'
  }

  predicate NoLineBreak(s: string) {
    forall k :: 0 <= k < |s| ==> !IsLineBreak(s[k])
  }

  predicate AllSpace(s: string) {
    forall k :: 0 <= k < |s| ==> IsSpace(s[k])
  }

  /** The first line boundary at or after `i`, or `|s|` when there is none. */
  function LineEnd(s: string, i: nat): (j: nat)
    requires i <= |s|
    ensures i <= j <= |s|
    ensures j < |s| ==> IsLineBreak(s[j])
    ensures forall k :: i <= k < j ==> !IsLineBreak(s[k])
    decreases |s| - i
  {
    if i == |s| || IsLineBreak(s[i]) then i else LineEnd(s, i + 1)
  }

  /** `LineEnd` finds the first boundary: any `j` with none before it and one at it is that boundary. */
  lemma {:induction false} LineEndIs(s: string, i: nat, j: nat)
    requires i <= j <= |s|
    requires forall k :: i <= k < j ==> !IsLineBreak(s[k])
    requires j == |s| || IsLineBreak(s[j])
    ensures LineEnd(s, i) == j
    decreases j - i
  {
    if i < j {
      LineEndIs(s, i + 1, j);
    }
  }

  /**
   * `str.splitlines()`: the lines of `s` without their terminators. An empty
   * string has no lines, and a final terminator does not open an empty line.
   */
  function SplitLines(s: string): (lines: seq<string>)
    ensures forall i :: 0 <= i < |lines| ==> NoLineBreak(lines[i])
    ensures |lines| <= |s|
    ensures lines == [] <==> s == []
    decreases |s|
  {
    if s == [] then []
    else
      var e := LineEnd(s, 0);
      if e == |s| then [s]
      else
        [s[..e]] + SplitLines(s[NextLineStart(s, e)..])
  }

  /** Where the line after the boundary at `e` starts: "\r\n" is one boundary of two characters. */
  function NextLineStart(s: string, e: nat): (next: nat)
    requires e < |s|
    ensures e < next <= |s|
  {
    if s[e] == '\r' && e + 1 < |s| && s[e + 1] == '\n' then e + 2 else e + 1
  }

  /** Lines written out one after another, each followed by "\n". */
  function JoinLines(lines: seq<string>): string {
    if lines == [] then [] else lines[0] + "\n" + JoinLines(lines[1..])
  }

  /** A text without any line boundary is one line, unchanged. */
  lemma SplitSingleLine(s: string)
    requires s != [] && NoLineBreak(s)
    ensures SplitLines(s) == [s]
  {
    assert LineEnd(s, 0) == |s|;
  }

  lemma LineEndOfJoined(l: string, rest: string)
    requires NoLineBreak(l)
    ensures LineEnd(l + "\n" + rest, 0) == |l|
  {
    var s := l + "\n" + rest;
    assert s[|l|] == '\n';
    assert forall k :: 0 <= k < |l| ==> s[k] == l[k];
  }

  /** Splitting undoes joining, as long as no line holds a boundary of its own. */
  lemma {:induction false} SplitJoin(lines: seq<string>)
    requires forall i :: 0 <= i < |lines| ==> NoLineBreak(lines[i])
    ensures SplitLines(JoinLines(lines)) == lines
  {
    if lines != [] {
      var l, rest := lines[0], JoinLines(lines[1..]);
      var s := l + "\n" + rest;
      assert JoinLines(lines) == s;
      LineEndOfJoined(l, rest);
      assert s[..|l|] == l;
      assert s[|l| + 1..] == rest;
      SplitJoin(lines[1..]);
    }
  }

  /** A line terminator `str.splitlines()` recognises: one boundary character, or "\r\n". */
  predicate IsTerminator(t: string) {
    (|t| == 1 && IsLineBreak(t[0])) || t == "\r\n"
  }

  /** Each line followed by its own terminator. */
  function JoinEnded(lines: seq<string>, ends: seq<string>): string
    requires |lines| == |ends|
  {
    if lines == [] then [] else lines[0] + ends[0] + JoinEnded(lines[1..], ends[1..])
  }

  /**
   * The terminators can be read back one by one: a lone "\r" is never
   * followed directly by a "\n" terminator of an empty line, which would
   * fuse the two into one "\r\n".
   */
  predicate Unfused(lines: seq<string>, ends: seq<string>)
    requires |lines| == |ends|
  {
    forall i :: 0 <= i < |lines| - 1 ==> !(ends[i] == "\r" && lines[i + 1] == [] && ends[i + 1] == "\n")
  }

  /**
   * Splitting undoes joining with any terminators: lines without a boundary
   * of their own, each ended by "\n", "\r", "\r\n" or any other boundary,
   * are split back into exactly those lines.
   */
  lemma {:induction false} SplitJoinEnded(lines: seq<string>, ends: seq<string>)
    requires |lines| == |ends|
    requires forall i :: 0 <= i < |lines| ==> NoLineBreak(lines[i]) && IsTerminator(ends[i])
    requires Unfused(lines, ends)
    ensures SplitLines(JoinEnded(lines, ends)) == lines
  {
    if lines != [] {
      var l, t, rest := lines[0], ends[0], JoinEnded(lines[1..], ends[1..]);
      var s := l + t + rest;
      assert JoinEnded(lines, ends) == s;
      assert LineEnd(s, 0) == |l| by {
        assert forall k :: 0 <= k < |l| ==> s[k] == l[k];
        assert s[|l|] == t[0];
        LineEndIs(s, 0, |l|);
      }
      assert NextLineStart(s, |l|) == |l| + |t| by {
        if t == "\r\n" {
          assert s[|l|] == '\r' && s[|l| + 1] == '\n';
        } else if |l| + 1 < |s| {
          assert s[|l| + 1] == rest[0];
          RestStart(lines[1..], ends[1..]);
          assert !(t == "\r" && lines[1] == [] && ends[1] == "\n");
        }
      }
      assert s[..|l|] == l;
      assert s[|l| + |t|..] == rest;
      assert Unfused(lines[1..], ends[1..]);
      SplitJoinEnded(lines[1..], ends[1..]);
    }
  }

  /** A joined text starts with its first line, or with the first terminator when that line is empty. */
  lemma RestStart(lines: seq<string>, ends: seq<string>)
    requires |lines| == |ends| && lines != []
    requires NoLineBreak(lines[0]) && IsTerminator(ends[0])
    ensures var s := JoinEnded(lines, ends);
      s != [] && (lines[0] != [] ==> s[0] == lines[0][0] && !IsLineBreak(s[0])) &&
      (lines[0] == [] ==> s[0] == ends[0][0])
  {
  }

  /**
   * A final "\n" after a text whose last character is not a line boundary
   * opens no extra line: "a\nb" and "a\nb\n" have the same lines.
   */
  lemma {:induction false} SplitFinalNewline(s: string)
    requires s != [] && !IsLineBreak(s[|s| - 1])
    ensures SplitLines(s + "\n") == SplitLines(s)
    decreases |s|
  {
    var t := s + "\n";
    var e := LineEnd(s, 0);
    if e == |s| {
      SplitOneLineNewline(s);
    } else {
      var next := NextLineStart(s, e);
      var rest := s[next..];
      assert NextLineStart(t, e) == next && t[..e] == s[..e] && t[next..] == rest + "\n" by {
        assert t[e] == s[e];
        if e + 1 < |s| {
          assert t[e + 1] == s[e + 1];
        }
      }
      assert LineEnd(t, 0) == e by {
        assert forall k :: 0 <= k <= e ==> t[k] == s[k];
        LineEndIs(t, 0, e);
      }
      assert rest != [] && rest[|rest| - 1] == s[|s| - 1];
      SplitFinalNewline(rest);
    }
  }

  lemma SplitOneLineNewline(s: string)
    requires s != [] && NoLineBreak(s)
    ensures SplitLines(s + "\n") == [s]
  {
    var t := s + "\n";
    assert forall k :: 0 <= k < |s| ==> t[k] == s[k];
    LineEndIs(t, 0, |s|);
    assert t[..|s|] == s;
    assert t[|s| + 1..] == [];
    assert SplitLines(t) == [s] + SplitLines([]);
  }

  /** `lstrip()`: what is left of `s` after dropping its leading whitespace. */
  function TrimStart(s: string): (r: string)
    ensures |r| <= |s|
    ensures r == [] || !IsSpace(r[0])
  {
    if s != [] && IsSpace(s[0]) then TrimStart(s[1..]) else s
  }

  /** `rstrip()`: what is left of `s` after dropping its trailing whitespace. */
  function TrimEnd(s: string): (r: string)
    ensures |r| <= |s|
    ensures r == [] || !IsSpace(r[|r| - 1])
  {
    if s != [] && IsSpace(s[|s| - 1]) then TrimEnd(s[..|s| - 1]) else s
  }

  /** `lstrip()` drops exactly the leading whitespace: the rest is a suffix that does not start with whitespace. */
  lemma {:induction false} TrimStartSpec(s: string)
    ensures |TrimStart(s)| <= |s| && TrimStart(s) == s[|s| - |TrimStart(s)|..]
    ensures AllSpace(s[..|s| - |TrimStart(s)|])
    ensures TrimStart(s) == [] || !IsSpace(TrimStart(s)[0])
  {
    if s != [] && IsSpace(s[0]) {
      TrimStartSpec(s[1..]);
      var r := TrimStart(s[1..]);
      assert s[|s| - |r|..] == s[1..][|s| - 1 - |r|..];
      forall k | 0 <= k < |s| - |r| ensures IsSpace(s[k]) {
        if k > 0 {
          assert s[k] == s[1..][..|s| - 1 - |r|][k - 1];
        }
      }
    }
  }

  /** `rstrip()` drops exactly the trailing whitespace: the rest is a prefix that does not end with whitespace. */
  lemma {:induction false} TrimEndSpec(s: string)
    ensures |TrimEnd(s)| <= |s| && TrimEnd(s) == s[..|TrimEnd(s)|]
    ensures AllSpace(s[|TrimEnd(s)|..])
    ensures TrimEnd(s) == [] || !IsSpace(TrimEnd(s)[|TrimEnd(s)| - 1])
  {
    if s != [] && IsSpace(s[|s| - 1]) {
      var init := s[..|s| - 1];
      TrimEndSpec(init);
      var r := TrimEnd(init);
      assert s[..|r|] == init[..|r|];
      forall k | |r| <= k < |s| ensures IsSpace(s[k]) {
        if k < |s| - 1 {
          assert s[k] == init[|r|..][k - |r|];
        }
      }
    }
  }

  predicate Unpadded(s: string) {
    s == [] || (!IsSpace(s[0]) && !IsSpace(s[|s| - 1]))
  }

  /** `str.strip()` with no argument: the result is no longer than the input and has no whitespace at either end. */
  function Strip(s: string): (r: string)
    ensures |r| <= |s|
    ensures Unpadded(r)
  {
    var t := TrimStart(s);
    TrimEndSpec(t);
    assert TrimEnd(t) == [] || TrimEnd(t)[0] == t[0];
    TrimEnd(t)
  }

  lemma {:induction false} TrimStartPadded(w: string, s: string)
    requires AllSpace(w) && (s == [] || !IsSpace(s[0]))
    ensures TrimStart(w + s) == s
  {
    if w != [] {
      assert (w + s)[1..] == w[1..] + s;
      TrimStartPadded(w[1..], s);
    } else {
      assert w + s == s;
    }
  }

  lemma {:induction false} TrimEndPadded(s: string, w: string)
    requires AllSpace(w) && (s == [] || !IsSpace(s[|s| - 1]))
    ensures TrimEnd(s + w) == s
  {
    if w != [] {
      assert (s + w)[..|s + w| - 1] == s + w[..|w| - 1];
      TrimEndPadded(s, w[..|w| - 1]);
    } else {
      assert s + w == s;
    }
  }

  /**
   * `strip()` removes exactly the whitespace around a text: the result has
   * no whitespace at either end, is a piece of the input, and padding a text
   * that has none with whitespace on both sides strips back to that text.
   */
  lemma StripResult(s: string)
    ensures Unpadded(Strip(s))
    ensures |Strip(s)| <= |TrimStart(s)| <= |s|
    ensures Strip(s) == s[|s| - |TrimStart(s)|..|s| - |TrimStart(s)| + |Strip(s)|]
  {
    var t := TrimStart(s);
    var r := TrimEnd(t);
    TrimStartSpec(s);
    TrimEndSpec(t);
    var off := |s| - |t|;
    assert r == s[off..][..|r|];
    assert s[off..][..|r|] == s[off..off + |r|];
    if r != [] {
      assert r[0] == t[0];
    }
  }

  lemma StripPadded(w1: string, s: string, w2: string)
    requires AllSpace(w1) && AllSpace(w2) && Unpadded(s)
    ensures Strip(w1 + s + w2) == s
  {
    assert w1 + s + w2 == w1 + (s + w2);
    if s == [] {
      assert s + w2 == w2;
      TrimStartPadded(w1 + w2, []);
      assert w1 + w2 + [] == w1 + w2;
      TrimEndPadded([], []);
      assert TrimStart(w1 + w2) == [];
      assert TrimStart(w1 + (s + w2)) == [];
    } else {
      assert (s + w2)[0] == s[0];
      TrimStartPadded(w1, s + w2);
      TrimEndPadded(s, w2);
    }
  }

  /** Stripping twice is stripping once. */
  lemma StripIdempotent(s: string)
    ensures Strip(Strip(s)) == Strip(s)
  {
    var r := Strip(s);
    StripResult(s);
    StripPadded([], r, []);
    assert [] + r + [] == r;
  }
}
