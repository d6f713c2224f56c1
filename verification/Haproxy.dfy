/** `_strip_ssh_lb`: cutting the SSH load-balancer sections out of haproxy.cfg. */
module Haproxy {
  import opened Text

  predicate StartsWith(s: string, prefix: string) {
    |prefix| <= |s| && s[..|prefix|] == prefix
  }

  const INDENTS := ["    ", "\t"]

  const HEADERS := ["frontend ssh-lb", "backend ssh-mixed"]

  /** `t.startswith(HEADERS)`, with a tuple of prefixes. */
  predicate StartsWithAny(t: string, prefixes: seq<string>) {
    exists i :: 0 <= i < |prefixes| && StartsWith(t, prefixes[i])
  }

  predicate HeaderText(t: string) {
    StartsWithAny(t, HEADERS)
  }

  /** The line that opens a section to cut. */
  predicate IsHeader(line: string) {
    HeaderText(Strip(line))
  }

  /** A line that continues the section above it. */
  predicate IsBody(line: string) {
    Strip(line) == "" || StartsWithAny(line, INDENTS)
  }

  /** Line `i` belongs to a section to cut: it opens one, or continues one. */
  predicate InSection(lines: seq<string>, opens: string -> bool, continues: string -> bool, i: nat)
    requires i < |lines|
  {
    opens(lines[i]) || (i > 0 && continues(lines[i]) && InSection(lines, opens, continues, i - 1))
  }

  /** The first `n` lines without those sections. */
  function Outside(lines: seq<string>, opens: string -> bool, continues: string -> bool, n: nat): seq<string>
    requires n <= |lines|
  {
    if n == 0 then []
    else Outside(lines, opens, continues, n - 1)
         + (if InSection(lines, opens, continues, n - 1) then [] else [lines[n - 1]])
  }

  /** The lines of haproxy.cfg outside the SSH load-balancer sections. */
  function OutsideLb(lines: seq<string>): seq<string> {
    Outside(lines, IsHeader, IsBody, |lines|)
  }

  /** `"\n".join(lines)`. */
  function Join(lines: seq<string>): string {
    if lines == [] then "" else if |lines| == 1 then lines[0] else lines[0] + "\n" + Join(lines[1..])
  }

  /** The newlines a string starts with. */
  function Newlines(s: string): (n: nat)
    ensures n <= |s| && forall i :: 0 <= i < n ==> s[i] == '\n'
    ensures n < |s| ==> s[n] != '\n'
  {
    if s == "" || s[0] != '\n' then 0 else 1 + Newlines(s[1..])
  }

  /** `re.sub(r"\n{3,}", "\n\n", s)`. */
  function Collapse(s: string): string {
    if s == "" then ""
    else if Newlines(s) >= 3 then "\n\n" + Collapse(s[Newlines(s)..])
    else [s[0]] + Collapse(s[1..])
  }

  /** What is left between the joining and the final newline. */
  function Middle(text: string): string {
    Strip(Collapse(Join(OutsideLb(SplitLines(text)))))
  }

  function StrippedLb(text: string): string {
    Middle(text) + "\n"
  }

  /** The file, rewritten in place. */
  class ConfigFile {
    var text: string

    constructor (text: string)
      ensures this.text == text
    {
      this.text := text;
    }

    method StripSshLb()
      modifies this
      ensures text == StrippedLb(old(text))
    {
      var out := CutSections(SplitLines(text), IsHeader, IsBody);
      text := Strip(Collapse(Join(out))) + "\n";
    }

    /** The scan: at an opening line, skip it and every line that continues it. */
    static method CutSections(lines: seq<string>, opens: string -> bool, continues: string -> bool)
      returns (out: seq<string>)
      ensures out == Outside(lines, opens, continues, |lines|)
    {
      out := [];
      var i, n := 0, |lines|;
      while i < n
        invariant 0 <= i <= n
        invariant out == Outside(lines, opens, continues, i)
        invariant 0 < i < n && continues(lines[i]) ==> !InSection(lines, opens, continues, i - 1)
      {
        var line := lines[i];
        if opens(line) {
          i := i + 1;
          while i < n && continues(lines[i])
            invariant 0 < i <= n
            invariant out == Outside(lines, opens, continues, i) && InSection(lines, opens, continues, i - 1)
          {
            i := i + 1;
          }
          continue;
        }
        out := out + [line];
        i := i + 1;
      }
    }
  }

  // ---- what survives ----

  function Word(line: string): seq<string> {
    if Strip(line) == "" then [] else [Strip(line)]
  }

  /** The words of the lines, in order: with `Word`, the non-blank lines, each trimmed. */
  function Words(word: string -> seq<string>, lines: seq<string>): seq<string> {
    if lines == [] then [] else word(lines[0]) + Words(word, lines[1..])
  }

  /** The same read character by character, with the current line so far in `acc`. */
  function WordsFrom(word: string -> seq<string>, acc: string, s: string): seq<string>
    decreases |s|
  {
    if s == "" then word(acc)
    else if s[0] == '\n' then word(acc) + WordsFrom(word, "", s[1..])
    else WordsFrom(word, acc + [s[0]], s[1..])
  }

  /** No line boundary but the newline. */
  ghost predicate NewlinesOnly(s: string) {
    forall i :: 0 <= i < |s| && IsBreak(s[i]) ==> s[i] == '\n'
  }

  lemma {:induction false} WordsAreRead(word: string -> seq<string>, acc: string, s: string, t: string)
    requires NoBreak(acc) && NewlinesOnly(s) && t == acc + s
    ensures Words(word, SplitLines(t + "\n")) == WordsFrom(word, acc, s)
    decreases |s|
  {
    if s == "" {
      assert t == acc && t + "\n" == acc + "\n" + "";
      SplitFirstLine(acc, "");
      assert SplitLines("") == [];
    } else if s[0] == '\n' {
      assert t + "\n" == acc + "\n" + (s[1..] + "\n");
      SplitFirstLine(acc, s[1..] + "\n");
      WordsAreRead(word, "", s[1..], s[1..]);
    } else {
      assert t == (acc + [s[0]]) + s[1..];
      WordsAreRead(word, acc + [s[0]], s[1..], t);
    }
  }

  lemma {:induction false} SkipNewlines(word: string -> seq<string>, s: string, n: nat)
    requires word("") == []
    requires n <= |s| && forall i :: 0 <= i < n ==> s[i] == '\n'
    ensures WordsFrom(word, "", s) == WordsFrom(word, "", s[n..])
  {
    if n > 0 {
      SkipNewlines(word, s[1..], n - 1);
      assert s[1..][n - 1..] == s[n..];
    } else {
      assert s[0..] == s;
    }
  }

  lemma RunOfNewlines(word: string -> seq<string>, acc: string, s: string, n: nat)
    requires word("") == []
    requires 0 < n <= |s| && forall i :: 0 <= i < n ==> s[i] == '\n'
    ensures WordsFrom(word, acc, s) == word(acc) + WordsFrom(word, "", s[n..])
  {
    SkipNewlines(word, s[1..], n - 1);
    assert s[1..][n - 1..] == s[n..];
  }

  lemma {:induction false} CollapseKeepsWords(word: string -> seq<string>, acc: string, s: string)
    requires word("") == []
    ensures WordsFrom(word, acc, Collapse(s)) == WordsFrom(word, acc, s)
    decreases |s|
  {
    if s != "" {
      var n := Newlines(s);
      var r := Collapse(s);
      if n >= 3 {
        CollapseKeepsWords(word, "", s[n..]);
        RunOfNewlines(word, acc, s, n);
        assert r[2..] == Collapse(s[n..]);
        RunOfNewlines(word, acc, r, 2);
      } else {
        assert r[0] == s[0] && r[1..] == Collapse(s[1..]);
        CollapseKeepsWords(word, if s[0] == '\n' then "" else acc + [s[0]], s[1..]);
      }
    }
  }

  /** This character at the front of a line changes no word. */
  ghost predicate LeadIgnored(word: string -> seq<string>, c: char) {
    forall line, spaced :: spaced == [c] + line ==> word(spaced) == word(line)
  }

  ghost predicate TailIgnored(word: string -> seq<string>, c: char) {
    forall line, spaced :: spaced == line + [c] ==> word(spaced) == word(line)
  }

  lemma {:induction false} LeadingSpace(word: string -> seq<string>, c: char, acc: string, spaced: string, s: string)
    requires LeadIgnored(word, c) && spaced == [c] + acc
    ensures WordsFrom(word, spaced, s) == WordsFrom(word, acc, s)
    decreases |s|
  {
    if s != "" && s[0] != '\n' {
      var longer, spacedLonger := acc + [s[0]], spaced + [s[0]];
      assert spacedLonger == [c] + longer;
      LeadingSpace(word, c, longer, spacedLonger, s[1..]);
    }
  }

  lemma {:induction false} TrailingSpace(word: string -> seq<string>, acc: string, s: string, c: char)
    requires TailIgnored(word, c) && word("") == []
    ensures WordsFrom(word, acc, s + [c]) == WordsFrom(word, acc, s)
    decreases |s|
  {
    if s == "" {
      assert s + [c] == [c] && [c][1..] == "";
    } else {
      assert (s + [c])[1..] == s[1..] + [c];
      TrailingSpace(word, if s[0] == '\n' then "" else acc + [s[0]], s[1..], c);
    }
  }

  /** A space at the front, newline or not, is read over. */
  lemma FirstSpace(word: string -> seq<string>, s: string)
    requires word("") == [] && s != "" && LeadIgnored(word, s[0])
    ensures WordsFrom(word, "", s) == WordsFrom(word, "", s[1..])
  {
    if s[0] != '\n' {
      assert "" + [s[0]] == [s[0]] + "";
      LeadingSpace(word, s[0], "", [s[0]] + "", s[1..]);
    }
  }

  // ---- trimming ----

  lemma {:induction false} StripLeftAppend(s: string, c: char)
    requires IsSpace(c)
    ensures StripLeft(s + [c]) == if StripLeft(s) == "" then "" else StripLeft(s) + [c]
  {
    var t := s + [c];
    if s == "" {
      assert t[1..] == "" && StripLeft(t) == StripLeft("");
    } else if IsSpace(s[0]) {
      assert t[0] == s[0] && t[1..] == s[1..] + [c];
      StripLeftAppend(s[1..], c);
      assert StripLeft(t) == StripLeft(s[1..] + [c]) && StripLeft(s) == StripLeft(s[1..]);
    } else {
      assert t[0] == s[0] && StripLeft(t) == t && StripLeft(s) == s;
    }
  }

  lemma StripAfterSpace(c: char, line: string, spaced: string)
    requires IsSpace(c) && spaced == [c] + line
    ensures Strip(spaced) == Strip(line)
  {
    assert spaced[1..] == line;
    assert StripLeft(spaced) == StripLeft(line);
  }

  lemma StripBeforeSpace(c: char, line: string, spaced: string)
    requires IsSpace(c) && spaced == line + [c]
    ensures Strip(spaced) == Strip(line)
  {
    StripLeftAppend(line, c);
    var t := StripLeft(line);
    assert (t + [c])[..|t + [c]| - 1] == t;
  }

  lemma SameWord(line: string, other: string)
    requires Strip(line) == Strip(other)
    ensures Word(line) == Word(other)
  {
  }

  lemma SpacesAreIgnored(c: char)
    requires IsSpace(c)
    ensures LeadIgnored(Word, c) && TailIgnored(Word, c) && Word("") == []
  {
    forall line, spaced | spaced == [c] + line ensures Word(spaced) == Word(line) {
      StripAfterSpace(c, line, spaced);
      SameWord(spaced, line);
    }
    forall line, spaced | spaced == line + [c] ensures Word(spaced) == Word(line) {
      StripBeforeSpace(c, line, spaced);
      SameWord(spaced, line);
    }
  }

  lemma {:induction false} StripLeftKeepsWords(s: string)
    ensures WordsFrom(Word, "", StripLeft(s)) == WordsFrom(Word, "", s)
  {
    if s != "" && IsSpace(s[0]) {
      StripLeftKeepsWords(s[1..]);
      SpacesAreIgnored(s[0]);
      FirstSpace(Word, s);
    }
  }

  lemma {:induction false} StripRightKeeps(word: string -> seq<string>, s: string)
    requires forall c :: IsSpace(c) ==> TailIgnored(word, c)
    requires word("") == []
    ensures WordsFrom(word, "", StripRight(s)) == WordsFrom(word, "", s)
  {
    if s != "" && IsSpace(s[|s| - 1]) {
      var t, c := s[..|s| - 1], s[|s| - 1];
      StripRightKeeps(word, t);
      TrailingSpace(word, "", t, c);
      assert t + [c] == s;
    }
  }

  lemma StripRightKeepsWords(s: string)
    ensures WordsFrom(Word, "", StripRight(s)) == WordsFrom(Word, "", s)
  {
    forall c | IsSpace(c) ensures TailIgnored(Word, c) && Word("") == [] {
      SpacesAreIgnored(c);
    }
    SpacesAreIgnored(' ');
    StripRightKeeps(Word, s);
  }

  // ---- the text in between ----

  lemma {:induction false} JoinRenders(lines: seq<string>)
    ensures Join(lines) + "\n" == Render(lines)
  {
    if |lines| == 1 {
      assert Unlines(lines[1..]) == "";
    } else if |lines| > 1 {
      JoinRenders(lines[1..]);
      assert lines[0] + "\n" + Join(lines[1..]) + "\n" == lines[0] + "\n" + (Join(lines[1..]) + "\n");
    }
  }

  lemma {:induction false} JoinHasNewlinesOnly(lines: seq<string>)
    requires AllNoBreak(lines)
    ensures NewlinesOnly(Join(lines))
  {
    if |lines| > 1 {
      JoinHasNewlinesOnly(lines[1..]);
    }
  }

  lemma JoinKeepsWords(word: string -> seq<string>, lines: seq<string>)
    requires AllNoBreak(lines) && word("") == []
    ensures WordsFrom(word, "", Join(lines)) == Words(word, lines)
  {
    if lines != [] {
      JoinHasNewlinesOnly(lines);
      WordsAreRead(word, "", Join(lines), Join(lines));
      JoinRenders(lines);
      SplitRender(lines);
    }
  }

  lemma {:induction false} CollapseHasNewlinesOnly(s: string)
    requires NewlinesOnly(s)
    ensures NewlinesOnly(Collapse(s))
    decreases |s|
  {
    if s != "" {
      if Newlines(s) >= 3 { CollapseHasNewlinesOnly(s[Newlines(s)..]); } else { CollapseHasNewlinesOnly(s[1..]); }
    }
  }

  lemma {:induction false} OutsideIsPart(lines: seq<string>, opens: string -> bool, continues: string -> bool, n: nat)
    requires n <= |lines|
    ensures forall line :: line in Outside(lines, opens, continues, n) ==> line in lines && !opens(line)
  {
    if n > 0 {
      OutsideIsPart(lines, opens, continues, n - 1);
    }
  }

  lemma MiddleIs(text: string)
    ensures NewlinesOnly(Middle(text))
    ensures WordsFrom(Word, "", Middle(text)) == Words(Word, OutsideLb(SplitLines(text)))
  {
    var lines := SplitLines(text);
    var out := OutsideLb(lines);
    SplitLinesNoBreak(text);
    OutsideIsPart(lines, IsHeader, IsBody, |lines|);
    assert forall i :: 0 <= i < |out| ==> out[i] in lines;
    var txt := Collapse(Join(out));
    JoinHasNewlinesOnly(out);
    CollapseHasNewlinesOnly(Join(out));
    assert Word("") == [];
    JoinKeepsWords(Word, out);
    CollapseKeepsWords(Word, "", Join(out));
    StripLeftKeepsWords(txt);
    StripRightKeepsWords(StripLeft(txt));
  }

  lemma TrimmedLinesSurvive(text: string)
    ensures Words(Word, SplitLines(StrippedLb(text))) == Words(Word, OutsideLb(SplitLines(text)))
  {
    MiddleIs(text);
    WordsAreRead(Word, "", Middle(text), Middle(text));
  }

  // ---- the surviving lines as they are ----

  /** A non-blank line, untouched. */
  function Whole(line: string): seq<string> {
    if Strip(line) == "" then [] else [line]
  }

  function OnFirst(f: string -> string, lines: seq<string>): seq<string> {
    if lines == [] then [] else [f(lines[0])] + lines[1..]
  }

  function OnLast(f: string -> string, lines: seq<string>): seq<string> {
    if lines == [] then [] else lines[..|lines| - 1] + [f(lines[|lines| - 1])]
  }

  function TrimFirst(lines: seq<string>): seq<string> {
    OnFirst(StripLeft, lines)
  }

  function TrimLast(lines: seq<string>): seq<string> {
    OnLast(StripRight, lines)
  }

  lemma OnFirstOfSum(f: string -> string, a: seq<string>, b: seq<string>, rest: seq<string>)
    requires OnFirst(f, a) == OnFirst(f, b) && (a == [] <==> b == [])
    ensures OnFirst(f, a + rest) == OnFirst(f, b + rest)
  {
    if a != [] {
      assert (a + rest)[1..] == OnFirst(f, a)[1..] + rest && OnFirst(f, a)[0] == f(a[0]);
      assert (b + rest)[1..] == OnFirst(f, b)[1..] + rest && OnFirst(f, b)[0] == f(b[0]);
    }
  }

  lemma OnLastOfSum(f: string -> string, rest: seq<string>, a: seq<string>, b: seq<string>)
    requires OnLast(f, a) == OnLast(f, b)
    ensures OnLast(f, rest + a) == OnLast(f, rest + b)
  {
    assert |OnLast(f, a)| == |a| && |OnLast(f, b)| == |b|;
    if a == [] {
      assert a == b;
    } else {
      var n := |a| - 1;
      assert OnLast(f, a)[n] == f(a[n]) && OnLast(f, a)[..n] == a[..n];
      assert OnLast(f, b)[n] == f(b[n]) && OnLast(f, b)[..n] == b[..n];
      assert (rest + a)[..|rest| + n] == rest + a[..n] && (rest + b)[..|rest| + n] == rest + b[..n];
      assert (rest + a)[|rest| + n] == a[n] && (rest + b)[|rest| + n] == b[n];
    }
  }

  /** A character in front of a line changes a word at most where `f` does not look. */
  ghost predicate LeadUnseen(word: string -> seq<string>, f: string -> string, c: char) {
    forall line, spaced :: spaced == [c] + line ==>
      (word(spaced) == [] <==> word(line) == []) && OnFirst(f, word(spaced)) == OnFirst(f, word(line))
  }

  ghost predicate TailUnseen(word: string -> seq<string>, f: string -> string, c: char) {
    forall line, spaced :: spaced == line + [c] ==> OnLast(f, word(spaced)) == OnLast(f, word(line))
  }

  lemma WholeAfterSpace(c: char, line: string, spaced: string)
    requires IsSpace(c) && spaced == [c] + line
    ensures StripLeft(spaced) == StripLeft(line)
    ensures Whole(spaced) == [] <==> Whole(line) == []
  {
    StripAfterSpace(c, line, spaced);
    assert spaced[1..] == line;
  }

  lemma WholeBeforeSpace(c: char, line: string, spaced: string)
    requires IsSpace(c) && spaced == line + [c]
    ensures StripRight(spaced) == StripRight(line)
    ensures Whole(spaced) == [] <==> Whole(line) == []
  {
    StripBeforeSpace(c, line, spaced);
    assert spaced[..|spaced| - 1] == line;
  }

  lemma OneLine(line: string)
    ensures Whole(line) == [] || Whole(line) == [line]
  {
  }

  lemma SameOnFirst(f: string -> string, a: seq<string>, b: seq<string>, x: string, y: string)
    requires (a == [] && b == []) || (a == [x] && b == [y] && f(x) == f(y))
    ensures OnFirst(f, a) == OnFirst(f, b) && OnLast(f, a) == OnLast(f, b)
  {
    if a != [] {
      assert [x][1..] == [y][1..] == [] && [x][..0] == [y][..0] == [];
    }
  }

  lemma LeadsAreUnseen(c: char)
    requires IsSpace(c)
    ensures LeadUnseen(Whole, StripLeft, c)
  {
    forall line, spaced | spaced == [c] + line
      ensures Whole(spaced) == [] <==> Whole(line) == []
      ensures OnFirst(StripLeft, Whole(spaced)) == OnFirst(StripLeft, Whole(line))
    {
      WholeAfterSpace(c, line, spaced);
      OneLine(line);
      OneLine(spaced);
      SameOnFirst(StripLeft, Whole(spaced), Whole(line), spaced, line);
    }
  }

  lemma TailsAreUnseen(c: char)
    requires IsSpace(c)
    ensures TailUnseen(Whole, StripRight, c)
  {
    forall line, spaced | spaced == line + [c]
      ensures OnLast(StripRight, Whole(spaced)) == OnLast(StripRight, Whole(line))
    {
      WholeBeforeSpace(c, line, spaced);
      OneLine(line);
      OneLine(spaced);
      SameOnFirst(StripRight, Whole(spaced), Whole(line), spaced, line);
    }
  }

  lemma {:induction false} SpaceInFront(word: string -> seq<string>, f: string -> string,
                                        c: char, acc: string, spaced: string, s: string)
    requires LeadUnseen(word, f, c) && spaced == [c] + acc
    ensures OnFirst(f, WordsFrom(word, spaced, s)) == OnFirst(f, WordsFrom(word, acc, s))
    decreases |s|
  {
    if s != "" {
      if s[0] == '\n' {
        OnFirstOfSum(f, word(spaced), word(acc), WordsFrom(word, "", s[1..]));
      } else {
        var longer, spacedLonger := acc + [s[0]], spaced + [s[0]];
        assert spacedLonger == [c] + longer;
        SpaceInFront(word, f, c, longer, spacedLonger, s[1..]);
      }
    }
  }

  lemma {:induction false} SpaceBehind(word: string -> seq<string>, f: string -> string, acc: string, s: string, c: char)
    requires TailUnseen(word, f, c) && word("") == []
    ensures OnLast(f, WordsFrom(word, acc, s + [c])) == OnLast(f, WordsFrom(word, acc, s))
    decreases |s|
  {
    if s == "" {
      assert s + [c] == [c] && [c][1..] == "";
      assert word(acc) + [] == word(acc);
    } else {
      assert (s + [c])[1..] == s[1..] + [c];
      SpaceBehind(word, f, if s[0] == '\n' then "" else acc + [s[0]], s[1..], c);
      if s[0] == '\n' {
        OnLastOfSum(f, word(acc), WordsFrom(word, "", s[1..] + [c]), WordsFrom(word, "", s[1..]));
      }
    }
  }

  /** Lines that start, or end, with no blank are whole words with nothing for `f` to do. */
  ghost predicate StartsStay(word: string -> seq<string>, f: string -> string, blank: char -> bool) {
    forall line :: line != "" && !blank(line[0]) ==> word(line) == [line] && f(line) == line
  }

  ghost predicate EndsStay(word: string -> seq<string>, f: string -> string, blank: char -> bool) {
    forall line {:trigger word(line)} {:trigger f(line)} ::
      line != "" && !blank(line[|line| - 1]) ==> word(line) == [line] && f(line) == line
  }

  lemma {:induction false} FirstStays(word: string -> seq<string>, f: string -> string, blank: char -> bool,
                                      acc: string, s: string)
    requires StartsStay(word, f, blank) && acc != "" && !blank(acc[0])
    ensures WordsFrom(word, acc, s) != [] && f(WordsFrom(word, acc, s)[0]) == WordsFrom(word, acc, s)[0]
    decreases |s|
  {
    assert word(acc) == [acc];
    if s != "" && s[0] != '\n' {
      FirstStays(word, f, blank, acc + [s[0]], s[1..]);
    }
  }

  /** The last line is one `f` leaves alone. */
  predicate EndsUntouched(f: string -> string, lines: seq<string>) {
    lines != [] && f(lines[|lines| - 1]) == lines[|lines| - 1]
  }

  lemma LastOfSum(f: string -> string, a: seq<string>, b: seq<string>)
    requires EndsUntouched(f, b)
    ensures EndsUntouched(f, a + b)
  {
    assert (a + b)[|a + b| - 1] == b[|b| - 1];
  }

  lemma {:induction false} LastStays(word: string -> seq<string>, f: string -> string, blank: char -> bool,
                                     acc: string, s: string)
    requires EndsStay(word, f, blank)
    requires if s == "" then acc != "" && !blank(acc[|acc| - 1]) else !blank(s[|s| - 1])
    requires blank('\n')
    ensures EndsUntouched(f, WordsFrom(word, acc, s))
    decreases |s|
  {
    if s == "" {
      assert word(acc) == [acc];
    } else {
      assert s[1..] != "" ==> s[1..][|s| - 2] == s[|s| - 1];
      if s[0] == '\n' {
        LastStays(word, f, blank, "", s[1..]);
        LastOfSum(f, word(acc), WordsFrom(word, "", s[1..]));
      } else {
        LastStays(word, f, blank, acc + [s[0]], s[1..]);
      }
    }
  }

  lemma NothingOnFirst(f: string -> string, lines: seq<string>)
    requires lines != [] && f(lines[0]) == lines[0]
    ensures OnFirst(f, lines) == lines
  {
  }

  lemma NothingOnLast(f: string -> string, lines: seq<string>)
    requires EndsUntouched(f, lines)
    ensures OnLast(f, lines) == lines
  {
  }

  lemma FirstUntouched(word: string -> seq<string>, f: string -> string, blank: char -> bool, s: string)
    requires StartsStay(word, f, blank) && blank('\n') && s != "" && !blank(s[0])
    ensures OnFirst(f, WordsFrom(word, "", s)) == WordsFrom(word, "", s)
  {
    assert "" + [s[0]] == [s[0]];
    FirstStays(word, f, blank, [s[0]], s[1..]);
    NothingOnFirst(f, WordsFrom(word, "", s));
  }

  lemma LastUntouched(word: string -> seq<string>, f: string -> string, blank: char -> bool, s: string)
    requires EndsStay(word, f, blank) && blank('\n') && s != "" && !blank(s[|s| - 1])
    ensures OnLast(f, WordsFrom(word, "", s)) == WordsFrom(word, "", s)
  {
    LastStays(word, f, blank, "", s);
    NothingOnLast(f, WordsFrom(word, "", s));
  }

  lemma StartsUntrimmed(line: string)
    requires line != "" && !IsSpace(line[0])
    ensures StripLeft(line) == line && Strip(line) != ""
  {
    StripRightKeepsFirst(line);
  }

  lemma {:induction false} StripRightKeepsFirst(line: string)
    requires line != "" && !IsSpace(line[0])
    ensures StripRight(line) != ""
  {
    if IsSpace(line[|line| - 1]) {
      StripRightKeepsFirst(line[..|line| - 1]);
    }
  }

  lemma {:induction false} StripLeftKeepsLast(line: string)
    requires line != "" && !IsSpace(line[|line| - 1])
    ensures StripLeft(line) != "" && StripLeft(line)[|StripLeft(line)| - 1] == line[|line| - 1]
  {
    if IsSpace(line[0]) {
      StripLeftKeepsLast(line[1..]);
    }
  }

  lemma EndsUntrimmed(line: string)
    requires line != "" && !IsSpace(line[|line| - 1])
    ensures StripRight(line) == line && Strip(line) != ""
  {
    StripLeftKeepsLast(line);
  }

  lemma WholeStays()
    ensures StartsStay(Whole, StripLeft, IsSpace) && EndsStay(Whole, StripRight, IsSpace)
  {
    forall line | line != "" && !IsSpace(line[0]) ensures Whole(line) == [line] && StripLeft(line) == line {
      StartsUntrimmed(line);
    }
    forall line | line != "" && !IsSpace(line[|line| - 1]) ensures Whole(line) == [line] && StripRight(line) == line {
      EndsUntrimmed(line);
    }
  }

  lemma SpaceOnTheLeft(s: string)
    requires s != "" && IsSpace(s[0])
    ensures TrimFirst(WordsFrom(Whole, "", s)) == TrimFirst(WordsFrom(Whole, "", s[1..]))
  {
    if s[0] == '\n' {
      assert Whole("") == [];
    } else {
      assert "" + [s[0]] == [s[0]] + "";
      LeadsAreUnseen(s[0]);
      SpaceInFront(Whole, StripLeft, s[0], "", [s[0]] + "", s[1..]);
    }
  }

  lemma NoSpaceOnTheLeft(s: string)
    requires s != "" && !IsSpace(s[0])
    ensures TrimFirst(WordsFrom(Whole, "", s)) == WordsFrom(Whole, "", s)
  {
    WholeStays();
    FirstUntouched(Whole, StripLeft, IsSpace, s);
  }

  lemma {:induction false} StripLeftTrimsFirst(s: string)
    ensures WordsFrom(Whole, "", StripLeft(s)) == TrimFirst(WordsFrom(Whole, "", s))
  {
    if s == "" {
      assert Whole("") == [];
    } else if IsSpace(s[0]) {
      StripLeftTrimsFirst(s[1..]);
      SpaceOnTheLeft(s);
    } else {
      NoSpaceOnTheLeft(s);
    }
  }

  lemma SpaceOnTheRight(s: string)
    requires s != "" && IsSpace(s[|s| - 1])
    ensures TrimLast(WordsFrom(Whole, "", s)) == TrimLast(WordsFrom(Whole, "", s[..|s| - 1]))
  {
    var t, c := s[..|s| - 1], s[|s| - 1];
    assert Whole("") == [];
    TailsAreUnseen(c);
    SpaceBehind(Whole, StripRight, "", t, c);
    assert t + [c] == s;
  }

  lemma NoSpaceOnTheRight(s: string)
    requires s != "" && !IsSpace(s[|s| - 1])
    ensures TrimLast(WordsFrom(Whole, "", s)) == WordsFrom(Whole, "", s)
  {
    WholeStays();
    LastUntouched(Whole, StripRight, IsSpace, s);
  }

  lemma {:induction false} StripRightTrimsLast(s: string)
    ensures WordsFrom(Whole, "", StripRight(s)) == TrimLast(WordsFrom(Whole, "", s))
  {
    if s == "" {
      assert Whole("") == [];
    } else if IsSpace(s[|s| - 1]) {
      StripRightTrimsLast(s[..|s| - 1]);
      SpaceOnTheRight(s);
    } else {
      NoSpaceOnTheRight(s);
    }
  }

  /** Every non-blank line outside the cut sections survives exactly as it was, in order, and
      nothing else does: only the start of the first and the end of the last are trimmed. */
  lemma LinesOutsideSurvive(text: string)
    ensures Words(Whole, SplitLines(StrippedLb(text))) ==
            TrimLast(TrimFirst(Words(Whole, OutsideLb(SplitLines(text)))))
  {
    var out := OutsideLb(SplitLines(text));
    var txt := Collapse(Join(out));
    assert Whole("") == [];
    MiddleIs(text);
    OutsideHasNoBreak(text);
    JoinKeepsWords(Whole, out);
    CollapseKeepsWords(Whole, "", Join(out));
    StripLeftTrimsFirst(txt);
    StripRightTrimsLast(StripLeft(txt));
    WordsAreRead(Whole, "", Middle(text), Middle(text));
  }

  lemma OutsideHasNoBreak(text: string)
    ensures AllNoBreak(OutsideLb(SplitLines(text)))
  {
    var lines := SplitLines(text);
    SplitLinesNoBreak(text);
    OutsideIsPart(lines, IsHeader, IsBody, |lines|);
    assert forall i :: 0 <= i < |OutsideLb(lines)| ==> OutsideLb(lines)[i] in lines;
  }

  // ---- no section is left ----

  lemma {:induction false} WordsOf(word: string -> seq<string>, lines: seq<string>, i: nat, w: string)
    requires i < |lines| && word(lines[i]) == [w]
    ensures w in Words(word, lines)
  {
    var first, rest := word(lines[0]), Words(word, lines[1..]);
    if i == 0 {
      assert first[0] == w;
      assert (first + rest)[0] == w;
    } else {
      assert lines[1..][i - 1] == lines[i];
      WordsOf(word, lines[1..], i - 1, w);
      var k :| 0 <= k < |rest| && rest[k] == w;
      assert (first + rest)[|first| + k] == w;
    }
  }

  lemma {:induction false} WordsCome(word: string -> seq<string>, lines: seq<string>, w: string)
    requires w in Words(word, lines)
    ensures exists line :: line in lines && w in word(line)
  {
    assert lines != [];
    if w in Words(word, lines[1..]) {
      WordsCome(word, lines[1..], w);
      var line :| line in lines[1..] && w in word(line);
      assert line in lines;
    } else {
      assert w in word(lines[0]) && lines[0] in lines;
    }
  }

  /** No line opens a section to cut. */
  ghost predicate Clean(lines: seq<string>) {
    forall i :: 0 <= i < |lines| ==> !IsHeader(lines[i])
  }

  /** The rewritten file opens no section of either kind. */
  lemma NoHeaderIsLeft(text: string)
    ensures forall line :: line in SplitLines(StrippedLb(text)) ==>
              !StartsWith(Strip(line), "frontend ssh-lb") && !StartsWith(Strip(line), "backend ssh-mixed")
    ensures Clean(SplitLines(StrippedLb(text)))
  {
    NoSuchHeader(text);
    forall line | line in SplitLines(StrippedLb(text))
      ensures !StartsWith(Strip(line), "frontend ssh-lb") && !StartsWith(Strip(line), "backend ssh-mixed")
    {
      assert !IsHeader(line);
      HeaderTextIs(Strip(line));
    }
  }

  lemma HeaderTextIs(t: string)
    ensures HeaderText(t) <==> StartsWith(t, "frontend ssh-lb") || StartsWith(t, "backend ssh-mixed")
  {
    assert HEADERS[0] == "frontend ssh-lb" && HEADERS[1] == "backend ssh-mixed";
  }

  lemma IndentedIs(line: string)
    ensures StartsWithAny(line, INDENTS) <==> StartsWith(line, "    ") || StartsWith(line, "\t")
  {
    assert INDENTS[0] == "    " && INDENTS[1] == "\t";
  }

  lemma IsBodyIs(line: string)
    ensures IsBody(line) <==> Strip(line) == "" || StartsWith(line, "    ") || StartsWith(line, "\t")
  {
    IndentedIs(line);
  }

  /** The lines that are cut: an opening line, and after it every line that continues the section, up to
      the first other one. */
  lemma {:induction false} InSectionIff(lines: seq<string>, opens: string -> bool, continues: string -> bool, i: nat)
    requires i < |lines|
    ensures InSection(lines, opens, continues, i) <==>
              exists j :: 0 <= j <= i && opens(lines[j]) && forall k :: j < k <= i ==> continues(lines[k])
  {
    if i > 0 { InSectionIff(lines, opens, continues, i - 1); }
  }

  lemma NoSuchHeader(text: string)
    ensures Clean(SplitLines(StrippedLb(text)))
  {
    var lines := SplitLines(StrippedLb(text));
    TrimmedLinesSurvive(text);
    forall i | 0 <= i < |lines| ensures !IsHeader(lines[i]) {
      if IsHeader(lines[i]) {
        HeaderIsAWord(lines, i);
        var w :| w in Words(Word, lines) && HeaderText(w);
        NoHeaderOutside(SplitLines(text), w);
      }
    }
  }

  lemma WordIsTheTrimmedLine(line: string, w: string)
    requires w in Word(line)
    ensures w == Strip(line)
  {
  }

  lemma NoHeaderOutside(lines: seq<string>, w: string)
    requires w in Words(Word, OutsideLb(lines))
    ensures !HeaderText(w)
  {
    WordsCome(Word, OutsideLb(lines), w);
    OutsideIsPart(lines, IsHeader, IsBody, |lines|);
    var line :| line in OutsideLb(lines) && w in Word(line);
    WordIsTheTrimmedLine(line, w);
    assert !IsHeader(line);
  }

  lemma BlankIsNoHeader()
    ensures !HeaderText("")
  {
  }

  lemma HeaderIsAWord(lines: seq<string>, i: nat)
    requires i < |lines| && IsHeader(lines[i])
    ensures exists w :: w in Words(Word, lines) && HeaderText(w)
  {
    BlankIsNoHeader();
    WordsOf(Word, lines, i, Strip(lines[i]));
  }

  // ---- idempotence ----

  predicate TripleAt(s: string, i: nat) {
    i + 2 < |s| && s[i] == '\n' && s[i + 1] == '\n' && s[i + 2] == '\n'
  }

  ghost predicate NoTriple(s: string) {
    forall i :: 0 <= i < |s| ==> !TripleAt(s, i)
  }

  lemma TwoNewlines(s: string)
    requires |s| >= 2 && s[0] == '\n' && s[1] == '\n'
    ensures Newlines(s) >= 2
  {
    assert Newlines(s) == 1 + Newlines(s[1..]) && s[1..][0] == '\n';
  }

  lemma NoTripleCons(c: char, s: string)
    requires NoTriple(s) && (c == '\n' ==> Newlines(s) <= 1)
    ensures NoTriple([c] + s) && Newlines([c] + s) == if c == '\n' then 1 + Newlines(s) else 0
  {
    var r := [c] + s;
    assert r[1..] == s;
    if |s| >= 2 && s[0] == '\n' && s[1] == '\n' { TwoNewlines(s); }
    assert !TripleAt(r, 0);
    forall i | 1 <= i < |r| ensures !TripleAt(r, i) {
      assert !TripleAt(s, i - 1);
    }
  }

  lemma {:induction false} CollapsedHasNoTriple(s: string)
    ensures NoTriple(Collapse(s))
    ensures Newlines(Collapse(s)) == if Newlines(s) >= 3 then 2 else Newlines(s)
    decreases |s|
  {
    if s != "" {
      var n := Newlines(s);
      if n >= 3 {
        var rest := Collapse(s[n..]);
        CollapsedHasNoTriple(s[n..]);
        assert Newlines(s[n..]) == 0 && Newlines(rest) == 0;
        NoTripleCons('\n', rest);
        NoTripleCons('\n', ['\n'] + rest);
        assert Collapse(s) == ['\n'] + (['\n'] + rest);
      } else {
        CollapsedHasNoTriple(s[1..]);
        NoTripleCons(s[0], Collapse(s[1..]));
      }
    }
  }

  lemma {:induction false} CollapseIsIdentity(s: string)
    requires NoTriple(s)
    ensures Collapse(s) == s
  {
    if s != "" {
      assert !TripleAt(s, 0);
      forall i | 0 <= i < |s| - 1 ensures !TripleAt(s[1..], i) {
        assert !TripleAt(s, i + 1);
      }
      CollapseIsIdentity(s[1..]);
    }
  }

  lemma StripIsIdempotent(s: string)
    ensures Strip(Strip(s)) == Strip(s)
  {
  }

  lemma DropHasNoTriple(s: string, k: nat)
    requires NoTriple(s) && k <= |s|
    ensures NoTriple(s[k..])
  {
    forall i | 0 <= i < |s| - k ensures !TripleAt(s[k..], i) {
      assert !TripleAt(s, k + i);
    }
  }

  lemma TakeHasNoTriple(s: string, k: nat)
    requires NoTriple(s) && k <= |s|
    ensures NoTriple(s[..k])
  {
    forall i | 0 <= i < k ensures !TripleAt(s[..k], i) {
      assert !TripleAt(s, i);
    }
  }

  lemma StripHasNoTriple(s: string)
    requires NoTriple(s)
    ensures NoTriple(Strip(s))
  {
    var l := StripLeft(s);
    DropHasNoTriple(s, |s| - |l|);
    TakeHasNoTriple(l, |StripRight(l)|);
  }

  lemma {:induction false} OutsideOfCleanLines(lines: seq<string>, opens: string -> bool,
                                               continues: string -> bool, n: nat)
    requires n <= |lines| && forall i :: 0 <= i < |lines| ==> !opens(lines[i])
    ensures Outside(lines, opens, continues, n) == lines[..n]
    ensures n > 0 ==> !InSection(lines, opens, continues, n - 1)
  {
    if n > 0 {
      OutsideOfCleanLines(lines, opens, continues, n - 1);
      assert lines[..n] == lines[..n - 1] + [lines[n - 1]];
    }
  }

  lemma UnlinesCons(line: string, rest: seq<string>)
    ensures Unlines([line] + rest) == line + "\n" + Unlines(rest)
  {
    assert ([line] + rest)[1..] == rest;
  }

  lemma {:induction false} EndsInABreak(u: string)
    requires u != "" && IsBreak(u[|u| - 1])
    ensures FirstBreak(u) < |u|
  {
    if !IsBreak(u[0]) {
      EndsInABreak(u[1..]);
    }
  }

  lemma CutAtNewline(u: string, i: nat)
    requires i < |u| && u[i] == '\n'
    ensures u == u[..i] + "\n" + u[i + 1..]
  {
  }

  /** The first line of a text that ends in a newline, and the rest of it. */
  lemma FirstLine(u: string)
    requires NewlinesOnly(u) && u != "" && u[|u| - 1] == '\n'
    ensures var i := FirstBreak(u);
            i < |u| && u == u[..i] + "\n" + u[i + 1..] && SplitLines(u) == [u[..i]] + SplitLines(u[i + 1..])
  {
    EndsInABreak(u);
    CutAtNewline(u, FirstBreak(u));
  }

  lemma {:induction false} UnlinesOfSplit(u: string)
    requires NewlinesOnly(u) && (u != "" ==> u[|u| - 1] == '\n')
    ensures Unlines(SplitLines(u)) == u
    decreases |u|
  {
    if u != "" {
      var i := FirstBreak(u);
      FirstLine(u);
      UnlinesOfSplit(u[i + 1..]);
      UnlinesCons(u[..i], SplitLines(u[i + 1..]));
    }
  }

  lemma JoinOfSplit(s: string)
    requires NewlinesOnly(s)
    ensures Join(SplitLines(s + "\n")) == s
  {
    UnlinesOfSplit(s + "\n");
    JoinRenders(SplitLines(s + "\n"));
    SameBeforeNewline(Join(SplitLines(s + "\n")), s);
  }

  lemma SameBeforeNewline(a: string, b: string)
    requires a + "\n" == b + "\n"
    ensures a == b
  {
    assert |a + "\n"| == |a| + 1 && |b + "\n"| == |b| + 1;
    assert a == (a + "\n")[..|a|] && b == (b + "\n")[..|b|];
  }

  lemma CleanLinesStay(lines: seq<string>)
    requires Clean(lines)
    ensures OutsideLb(lines) == lines
  {
    OutsideOfCleanLines(lines, IsHeader, IsBody, |lines|);
    assert lines[..|lines|] == lines;
  }

  /** Neither collapsing nor stripping has anything left to do. */
  ghost predicate AtRest(x: string) {
    Collapse(x) == x && Strip(x) == x
  }

  lemma StrippedIsAtRest(txt: string)
    requires NoTriple(txt)
    ensures AtRest(Strip(txt))
  {
    StripHasNoTriple(txt);
    CollapseIsIdentity(Strip(txt));
    StripIsIdempotent(txt);
  }

  lemma MiddleIsAtRest(text: string)
    ensures AtRest(Middle(text))
  {
    var joined := Join(OutsideLb(SplitLines(text)));
    CollapsedHasNoTriple(joined);
    StrippedIsAtRest(Collapse(joined));
  }

  lemma RunAtRest(once: string, x: string)
    requires Clean(SplitLines(once)) && Join(SplitLines(once)) == x && AtRest(x)
    ensures StrippedLb(once) == x + "\n"
  {
    CleanLinesStay(SplitLines(once));
  }

  /** A second run changes nothing. */
  lemma StripLbIsIdempotent(text: string)
    ensures StrippedLb(StrippedLb(text)) == StrippedLb(text)
  {
    MiddleIs(text);
    NoHeaderIsLeft(text);
    JoinOfSplit(Middle(text));
    MiddleIsAtRest(text);
    RunAtRest(StrippedLb(text), Middle(text));
  }
}
