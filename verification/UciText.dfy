/** The lexical side of the configuration format (internal/ucicfg/uci.go): lines, keywords,
    tokens and quoting. */
module UciText {
  import opened Strings

  predicate IsBlank(c: char) {
    c == ' ' || c == '\t'
  }

  predicate IsQuote(c: char) {
    c == '\'' || c == '"'
  }

  function IndexOfBlank(s: string): (i: nat)
    ensures i <= |s|
    ensures forall k :: 0 <= k < i ==> !IsBlank(s[k])
    ensures i < |s| ==> IsBlank(s[i])
  {
    if s == "" || IsBlank(s[0]) then 0 else 1 + IndexOfBlank(s[1..])
  }

  function SplitKeyword(line: string): (string, string) {
    var i := IndexOfBlank(line);
    if i == |line| then (line, "") else (line[..i], TrimSpace(line[i + 1..]))
  }

  function TrimLeft(s: string): string {
    if s != "" && IsBlank(s[0]) then TrimLeft(s[1..]) else s
  }

  /** What stands before the closing quote, and what is left behind it. */
  function ReadQuoted(s: string, q: char): (string, string) {
    if s == "" then ("", "")
    else if s[0] == q then ("", s[1..])
    else if s[0] == '\\' && q == '"' && |s| > 1 then
      var r := ReadQuoted(s[2..], q);
      ([s[1]] + r.0, r.1)
    else
      var r := ReadQuoted(s[1..], q);
      ([s[0]] + r.0, r.1)
  }

  function Token(line: string): (string, string) {
    var s := TrimLeft(line);
    if s == "" then ("", "")
    else if IsQuote(s[0]) then ReadQuoted(s[1..], s[0])
    else
      var i := IndexOfBlank(s);
      if i == |s| then (s, "") else (s[..i], s[i + 1..])
  }

  function TwoTokens(s: string): (string, string) {
    (Token(s).0, Token(Token(s).1).0)
  }

  lemma OneMore(tok: string, c: char, rest: string)
    ensures tok + ([c] + rest) == tok + [c] + rest
  {
  }

  method NextToken(line: string) returns (tok: string, rest: string)
    ensures (tok, rest) == Token(line)
  {
    var s := TrimLeft(line);
    if s == "" {
      return "", "";
    }
    if IsQuote(s[0]) {
      var q, i := s[0], 1;
      tok := "";
      assert "" + ReadQuoted(s[1..], q).0 == ReadQuoted(s[1..], q).0;
      while i < |s|
        invariant 1 <= i <= |s|
        invariant ReadQuoted(s[1..], q) == (tok + ReadQuoted(s[i..], q).0, ReadQuoted(s[i..], q).1)
      {
        assert s[i..][1..] == s[i + 1..];
        if s[i] == q {
          assert tok + "" == tok;
          return tok, s[i + 1..];
        }
        if s[i] == '\\' && q == '"' && i + 1 < |s| {
          assert s[i..][2..] == s[i + 2..];
          i := i + 1;
        }
        OneMore(tok, s[i], ReadQuoted(s[i + 1..], q).0);
        tok := tok + [s[i]];
        i := i + 1;
      }
      assert s[i..] == "" && tok + "" == tok;
      return tok, "";
    }
    var i := IndexOfBlank(s);
    if i == |s| {
      return s, "";
    }
    return s[..i], s[i + 1..];
  }

  // ----- quoting

  function Escaped(s: string): string {
    if s == "" then "" else (if s[0] == '\'' then "'\\''" else [s[0]]) + Escaped(s[1..])
  }

  function Quote(s: string): string {
    "'" + Escaped(s) + "'"
  }

  /** The part of a value before its first apostrophe. */
  function Cut(s: string): string {
    if s == "" || s[0] == '\'' then "" else [s[0]] + Cut(s[1..])
  }

  lemma {:induction false} CutKeeps(s: string)
    ensures Cut(s) == s <==> '\'' !in s
    ensures '\'' !in Cut(s) && ('\n' !in s ==> '\n' !in Cut(s))
  {
    if s != "" {
      CutKeeps(s[1..]);
      assert s == [s[0]] + s[1..];
    }
  }

  /** Quoting and reading again gives the part before the first apostrophe. */
  lemma {:induction false} QuotedReadsCut(v: string, tail: string)
    ensures ReadQuoted(Escaped(v) + "'" + tail, '\'').0 == Cut(v)
  {
    var s := Escaped(v) + "'" + tail;
    if v == "" {
      assert s[0] == '\'';
    } else if v[0] == '\'' {
      assert s[0] == '\'';
    } else {
      QuotedReadsCut(v[1..], tail);
      assert s[1..] == Escaped(v[1..]) + "'" + tail;
      assert s[0] == v[0];
    }
  }

  lemma {:induction false} EscapedHasNoNewline(v: string)
    requires '\n' !in v
    ensures '\n' !in Escaped(v)
  {
    if v != "" {
      EscapedHasNoNewline(v[1..]);
    }
  }

  // ----- words

  /** A word that is read back as one token when written as it is. */
  predicate Bare(s: string) {
    s != "" && !IsQuote(s[0]) && forall i :: 0 <= i < |s| ==> !IsSpace(s[i])
  }

  lemma {:induction false} BlankAfterWord(word: string, tail: string)
    requires forall i :: 0 <= i < |word| ==> !IsBlank(word[i])
    requires tail == "" || IsBlank(tail[0])
    ensures IndexOfBlank(word + tail) == |word|
  {
    if word == "" {
      assert word + tail == tail;
    } else {
      assert (word + tail)[1..] == word[1..] + tail;
      BlankAfterWord(word[1..], tail);
    }
  }

  lemma BlanksAreSpaces(c: char)
    ensures IsBlank(c) ==> IsSpace(c)
    ensures IsSpace('\t')
  {
  }

  /** A line is read the same with a tab before it. */
  lemma TabIsTrimmed(s: string)
    requires s != "" && !IsSpace(s[0]) && !IsSpace(s[|s| - 1])
    ensures TrimSpace(s) == s && TrimSpace("\t" + s) == s
  {
    hide IsSpace, TrimStart, TrimEnd;
    TrimKeeps(s);
    TabDropped(s);
  }

  lemma TabDropped(s: string)
    ensures TrimStart("\t" + s) == TrimStart(s)
  {
    hide IsSpace;
    var t := "\t" + s;
    BlanksAreSpaces('\t');
    assert t[0] == '\t' && t[1..] == s;
  }

  /** What a line `word rest` is split into. */
  lemma KeywordOf(word: string, rest: string)
    requires Bare(word) && rest != "" && !IsSpace(rest[0]) && !IsSpace(rest[|rest| - 1])
    ensures var line := word + " " + rest;
            && TrimSpace(line) == line && TrimSpace("\t" + line) == line && line != "" && line[0] == word[0]
            && SplitKeyword(line) == (word, rest)
  {
    hide TrimSpace, IndexOfBlank;
    var line := word + " " + rest;
    TabIsTrimmed(line);
    TrimKeeps(rest);
    BlankAfterWord(word, " " + rest);
    assert line == word + (" " + rest);
    assert line[..|word|] == word && line[|word| + 1..] == rest;
  }

  lemma WordAlone(word: string)
    requires Bare(word)
    ensures TrimSpace(word) == word && SplitKeyword(word) == (word, "") && TwoTokens(word) == (word, "")
    ensures Token(word) == (word, "")
  {
    hide TrimSpace, IndexOfBlank;
    TrimKeeps(word);
    BlankAfterWord(word, "");
    assert word + "" == word;
  }

  lemma WordFirst(word: string, tail: string)
    requires Bare(word)
    ensures Token(word + " " + tail) == (word, tail)
  {
    hide IndexOfBlank, ReadQuoted;
    var s := word + " " + tail;
    assert s[0] == word[0] && !IsBlank(s[0]);
    BlankAfterWord(word, " " + tail);
    assert s == word + (" " + tail);
    assert s[..|word|] == word && s[|word| + 1..] == tail;
  }

  lemma QuotedToken(v: string)
    ensures Token(Quote(v)).0 == Cut(v)
  {
    hide IndexOfBlank, ReadQuoted, Escaped, Cut;
    var quoted := Quote(v);
    assert quoted[0] == '\'' && TrimLeft(quoted) == quoted;
    assert quoted[1..] == Escaped(v) + "'" + "";
    QuotedReadsCut(v, "");
  }

  lemma WordAndValue(word: string, v: string)
    requires Bare(word)
    ensures TwoTokens(word + " " + Quote(v)) == (word, Cut(v))
    ensures var s := word + " " + Quote(v); !IsSpace(s[0]) && !IsSpace(s[|s| - 1])
  {
    hide Token, Escaped, Cut;
    WordFirst(word, Quote(v));
    QuotedToken(v);
  }

  // ----- lines

  function IndexOfNewline(s: string): (i: nat)
    ensures i <= |s|
    ensures '\n' !in s[..i]
    ensures i < |s| ==> s[i] == '\n'
  {
    if s == "" || s[0] == '\n' then 0 else 1 + IndexOfNewline(s[1..])
  }

  /** The lines of a text. A last line needs no newline. */
  function Lines(text: string): seq<string>
    decreases |text|
  {
    if text == "" then []
    else
      var i := IndexOfNewline(text);
      if i == |text| then [text] else [text[..i]] + Lines(text[i + 1..])
  }

  function Unlines(lines: seq<string>): string {
    if lines == [] then "" else Unlines(lines[..|lines| - 1]) + lines[|lines| - 1] + "\n"
  }

  predicate OneLine(s: string) {
    '\n' !in s
  }

  lemma {:induction false} NewlineAfter(line: string, tail: string)
    requires OneLine(line)
    ensures IndexOfNewline(line + "\n" + tail) == |line|
  {
    var s := line + "\n" + tail;
    if line != "" {
      assert s[1..] == line[1..] + "\n" + tail;
      NewlineAfter(line[1..], tail);
    }
  }

  lemma FirstLine(line: string, tail: string)
    requires OneLine(line)
    ensures Lines(line + "\n" + tail) == [line] + Lines(tail)
  {
    hide IndexOfNewline;
    var s := line + "\n" + tail;
    NewlineAfter(line, tail);
    assert s[..|line|] == line && s[|line| + 1..] == tail;
  }

  lemma {:induction false} LinesOfUnlines(lines: seq<string>, tail: string)
    requires forall i :: 0 <= i < |lines| ==> OneLine(lines[i])
    ensures Lines(Unlines(lines) + tail) == lines + Lines(tail)
  {
    if lines == [] {
      assert "" + tail == tail;
    } else {
      hide Lines, OneLine;
      var init, last := lines[..|lines| - 1], lines[|lines| - 1];
      var more := last + "\n" + tail;
      assert Unlines(lines) + tail == Unlines(init) + more;
      LinesOfUnlines(init, more);
      FirstLine(last, tail);
      assert init + ([last] + Lines(tail)) == (init + [last]) + Lines(tail);
      assert lines == init + [last];
    }
  }

  lemma {:induction false} UnlinesJoin(a: seq<string>, b: seq<string>)
    ensures Unlines(a + b) == Unlines(a) + Unlines(b)
  {
    if b == [] {
      assert a + b == a;
    } else {
      assert (a + b)[..|a + b| - 1] == a + b[..|b| - 1];
      UnlinesJoin(a, b[..|b| - 1]);
    }
  }
}
