/** Python's `str` operations the panel leans on: `splitlines`, `"\n".join(..) + "\n"`,
    `strip` and `lower` (the latter on the ASCII names `valid_name` lets through). */
module Text {

  /** The line boundaries of `str.splitlines` ("\r\n" counts as one boundary). */
  predicate IsBreak(c: char) {
    '\n' <= c <= '\r' || '\U{1C}' <= c <= '\U{1E}' || c == '\U{85}' || '\U{2028}' <= c <= '\U{2029}'
  }

  predicate NoBreak(s: string) {
    forall i :: 0 <= i < |s| ==> !IsBreak(s[i])
  }

  /** `str.isspace` on one character. */
  predicate IsSpace(c: char) {
    '\t' <= c <= '\r' || '\U{1C}' <= c <= ' ' || c == '\U{85}' || c == '\U{A0}' || c == '\U{1680}'
    || '\U{2000}' <= c <= '\U{200A}' || '\U{2028}' <= c <= '\U{2029}' || c == '\U{202F}'
    || c == '\U{205F}' || c == '\U{3000}'
  }

  function FirstBreak(s: string): (i: nat)
    ensures i <= |s| && NoBreak(s[..i])
    ensures i < |s| ==> IsBreak(s[i])
  {
    if s == "" || IsBreak(s[0]) then 0
    else
      var i := 1 + FirstBreak(s[1..]);
      assert s[..i] == [s[0]] + s[1..][..i - 1];
      i
  }

  function BreakLen(s: string, i: nat): (n: nat)
    requires i < |s|
    ensures 1 <= n && i + n <= |s|
  {
    if s[i] == '\r' && i + 1 < |s| && s[i + 1] == '\n' then 2 else 1
  }

  function SplitLines(s: string): seq<string>
    decreases |s|
  {
    if s == "" then []
    else
      var i := FirstBreak(s);
      if i == |s| then [s] else [s[..i]] + SplitLines(s[i + BreakLen(s, i)..])
  }

  function Unlines(lines: seq<string>): string {
    if lines == [] then "" else lines[0] + "\n" + Unlines(lines[1..])
  }

  /** `"\n".join(lines) + "\n"`. */
  function Render(lines: seq<string>): string {
    if lines == [] then "\n" else Unlines(lines)
  }

  ghost predicate AllNoBreak(lines: seq<string>) {
    forall i :: 0 <= i < |lines| ==> NoBreak(lines[i])
  }

  lemma {:induction false} SplitLinesNoBreak(s: string)
    ensures AllNoBreak(SplitLines(s))
    decreases |s|
  {
    if s != "" {
      var i := FirstBreak(s);
      if i == |s| {
        assert s[..i] == s;
      } else {
        SplitLinesNoBreak(s[i + BreakLen(s, i)..]);
      }
    }
  }

  lemma {:induction false} FirstBreakAt(a: string, b: string)
    requires NoBreak(a) && b != "" && IsBreak(b[0])
    ensures FirstBreak(a + b) == |a|
  {
    if a == "" {
      assert a + b == b;
    } else {
      assert (a + b)[1..] == a[1..] + b;
      FirstBreakAt(a[1..], b);
    }
  }

  /** Splitting peels off exactly one line that ends in a newline. */
  lemma SplitFirstLine(a: string, rest: string)
    requires NoBreak(a)
    ensures SplitLines(a + "\n" + rest) == [a] + SplitLines(rest)
  {
    var s := a + "\n" + rest;
    assert s == a + ("\n" + rest);
    FirstBreakAt(a, "\n" + rest);
    assert s[..|a|] == a && s[|a| + 1..] == rest && BreakLen(s, |a|) == 1;
  }

  lemma {:induction false} SplitUnlines(lines: seq<string>)
    requires AllNoBreak(lines)
    ensures SplitLines(Unlines(lines)) == lines
  {
    if lines != [] {
      SplitUnlines(lines[1..]);
      SplitFirstLine(lines[0], Unlines(lines[1..]));
    }
  }

  /** Writing lines and reading them back is the identity exactly on the non-empty lists
      whose lines carry no line boundary of their own. */
  lemma SplitRender(lines: seq<string>)
    ensures SplitLines(Render(lines)) == lines <==> lines != [] && AllNoBreak(lines)
  {
    SplitLinesNoBreak(Render(lines));
    if AllNoBreak(lines) {
      SplitUnlines(lines);
    }
    if lines == [] {
      SplitFirstLine("", "");
    }
  }

  lemma SplitsOff(s: string, a: string, n: nat, b: string)
    requires |a| < |s| && FirstBreak(s) == |a| && s[..|a|] == a && BreakLen(s, |a|) == n && s[|a| + n..] == b
    ensures SplitLines(s) == [a] + SplitLines(b)
  {
  }

  /** Each of the three usual line ends ends a line once. */
  lemma LineEndSplits(a: string, end: string, b: string, s: string)
    requires NoBreak(a) && s == a + (end + b)
    requires end == "\n" || end == "\r\n" || (end == "\r" && (b == "" || b[0] != '\n'))
    ensures SplitLines(s) == [a] + SplitLines(b)
  {
    var i := |a|;
    FirstBreakAt(a, end + b);
    assert s[..i] == a && s[i..] == end + b && s[i + |end|..] == b;
    assert s[i] == end[0] && (i + 1 < |s| ==> s[i + 1] == (end + b)[1]);
    SplitsOff(s, a, |end|, b);
  }

  function StripLeft(s: string): (r: string)
    ensures |r| <= |s| && r == s[|s| - |r|..]
    ensures r != "" ==> !IsSpace(r[0])
  {
    if s != "" && IsSpace(s[0]) then StripLeft(s[1..]) else s
  }

  function StripRight(s: string): (r: string)
    ensures |r| <= |s| && r == s[..|r|]
    ensures r != "" ==> !IsSpace(r[|r| - 1])
  {
    if s != "" && IsSpace(s[|s| - 1]) then StripRight(s[..|s| - 1]) else s
  }

  /** `str.strip()`. */
  function Strip(s: string): string {
    StripRight(StripLeft(s))
  }

  function LowerChar(c: char): char {
    if 'A' <= c <= 'Z' then c - 'A' + 'a' else c
  }

  function Lower(s: string): (r: string)
    ensures |r| == |s|
  {
    seq(|s|, i requires 0 <= i < |s| => LowerChar(s[i]))
  }

  /** Spaces, tabs and line ends. */
  predicate Blanks(s: string) {
    forall i :: 0 <= i < |s| ==> s[i] == ' ' || s[i] == '\t' || s[i] == '\n' || s[i] == '\r'
  }

  lemma {:induction false} BlanksOnTheLeft(l: string, x: string)
    requires Blanks(l)
    ensures StripLeft(l + x) == StripLeft(x)
  {
    if l == "" {
      assert l + x == x;
    } else {
      assert (l + x)[1..] == l[1..] + x;
      BlanksOnTheLeft(l[1..], x);
    }
  }

  lemma {:induction false} BlanksOnTheRight(x: string, r: string)
    requires Blanks(r)
    ensures StripRight(x + r) == StripRight(x)
  {
    if r == "" {
      assert x + r == x;
    } else {
      var n := |r| - 1;
      assert (x + r)[..|x + r| - 1] == x + r[..n];
      BlanksOnTheRight(x, r[..n]);
    }
  }

  lemma InkStays(c: char, x: string)
    requires '!' <= c <= '~' && x != ""
    ensures x[0] == c ==> StripLeft(x) == x
    ensures x[|x| - 1] == c ==> StripRight(x) == x
  {
  }

  /** Blanks around a text go, and nothing of it does. */
  lemma BlanksAreStripped(l: string, x: string, r: string, right: string)
    requires Blanks(l) && Blanks(r) && x != "" && '!' <= x[0] <= '~' && '!' <= x[|x| - 1] <= '~' && right == x + r
    ensures Strip(l + right) == x
  {
    BlanksOnTheLeft(l, right);
    InkStays(x[0], right);
    BlanksOnTheRight(x, r);
    InkStays(x[|x| - 1], x);
  }

  const ALPHABET := "abcdefghijklmnopqrstuvwxyz"

  /** Each capital becomes the letter at its place in the alphabet, and nothing else changes. */
  lemma CapitalsFold(s: string, i: nat)
    requires i < |s|
    ensures Lower(s)[i] == if 'A' <= s[i] <= 'Z' then ALPHABET[s[i] as int - 'A' as int] else s[i]
  {
    assert forall k :: 0 <= k < 26 ==> ALPHABET[k] as int == 'a' as int + k;
  }
}
