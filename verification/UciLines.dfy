/**
 What the lines of a configuration file mean (internal/ucicfg/uci.go), whoever wrote them: a value
 may stand bare, in single quotes, or in double quotes.
 */
module UciLines {
  import opened Strings
  import opened UciText
  import opened UciModel

  /** A value for double quotes: a backslash before every double quote and every backslash. */
  function Backslashed(v: string): string {
    if v == "" then ""
    else (if v[0] == '"' || v[0] == '\\' then ['\\', v[0]] else [v[0]]) + Backslashed(v[1..])
  }

  /** `written` stands for the value `v`. */
  predicate Spells(written: string, v: string) {
    || (written == v && Bare(v))
    || (written == "'" + v + "'" && '\'' !in v)
    || written == "\"" + Backslashed(v) + "\""
  }

  /** Whatever a value holds comes back from double quotes. */
  lemma {:induction false} DoubleQuotedReads(v: string, tail: string)
    ensures ReadQuoted(Backslashed(v) + "\"" + tail, '"') == (v, tail)
  {
    var s := Backslashed(v) + "\"" + tail;
    if v == "" {
      assert s[0] == '"' && s[1..] == tail;
    } else {
      DoubleQuotedReads(v[1..], tail);
      var rest := Backslashed(v[1..]) + "\"" + tail;
      assert v == [v[0]] + v[1..];
      if v[0] == '"' || v[0] == '\\' {
        assert s[0] == '\\' && s[1] == v[0] && s[2..] == rest;
      } else {
        assert s[0] == v[0] && s[1..] == rest;
      }
    }
  }

  lemma {:induction false} SingleQuotedReads(v: string)
    requires '\'' !in v
    ensures ReadQuoted(v + "'", '\'') == (v, "")
  {
    var s := v + "'";
    if v == "" {
      assert s[0] == '\'' && s[1..] == "";
    } else {
      SingleQuotedReads(v[1..]);
      assert v == [v[0]] + v[1..] && s[0] == v[0] && s[1..] == v[1..] + "'";
    }
  }

  lemma SpelledToken(written: string, v: string)
    requires Spells(written, v)
    ensures Token(written).0 == v && TwoTokens(written) == (v, "")
    ensures written != "" && !IsSpace(written[0]) && !IsSpace(written[|written| - 1])
  {
    hide IndexOfBlank, ReadQuoted, Backslashed, IsSpace;
    QuotesAreNoSpaces();
    if written == v && Bare(v) {
      WordAlone(v);
    } else if written == "'" + v + "'" && '\'' !in v {
      SingleQuotedReads(v);
      assert written[0] == '\'' && written[1..] == v + "'" && TrimLeft(written) == written;
    } else {
      DoubleQuotedReads(v, "");
      assert written[0] == '"' && written[1..] == Backslashed(v) + "\"" + "" && TrimLeft(written) == written;
    }
    assert Token("") == ("", "");
  }

  lemma QuotesAreNoSpaces()
    ensures !IsSpace('\'') && !IsSpace('"')
  {
  }

  /** A line of a keyword, a word and a value is read as those three. */
  lemma LineReads(indent: string, word: string, k: string, written: string, v: string)
    requires indent in {"", "\t"} && Bare(word) && Bare(k) && Spells(written, v)
    ensures var line := indent + word + " " + k + " " + written;
            && TrimSpace(line) != "" && TrimSpace(line)[0] == word[0]
            && SplitKeyword(TrimSpace(line)) == (word, k + " " + written) && TwoTokens(k + " " + written) == (k, v)
  {
    hide Token, TrimSpace, SplitKeyword, Spells, IsSpace;
    SpelledToken(written, v);
    WordFirst(k, written);
    KeywordOf(word, k + " " + written);
    var rest := word + " " + (k + " " + written);
    assert indent + word + " " + k + " " + written == indent + rest;
    assert "" + rest == rest;
  }

  /** The state with `s` as the section being read. */
  function Reading(st: State, s: Section): State
    requires st.pkg.sections != []
  {
    State(Package(st.pkg.name, st.pkg.sections[..|st.pkg.sections| - 1] + [s]), st.anon)
  }

  lemma Keywords()
    ensures Bare("package") && Bare("config") && Bare("option") && Bare("list")
    ensures "option" != "list" && "option" != "package" && "option" != "config"
    ensures "list" != "package" && "list" != "config" && "config" != "package"
  {
    var o, l, p, c := "option", "list", "package", "config";
    assert o[0] == 'o' && l[0] == 'l' && p[0] == 'p' && c[0] == 'c';
  }

  /** An option of the section being read is set, whatever it was before, and keeps the place it
      was first seen at. Before any section the line says nothing. */
  lemma OptionLine(st: State, indent: string, k: string, written: string, v: string)
    requires indent in {"", "\t"} && Bare(k) && Spells(written, v)
    ensures var after := Step(st, indent + "option " + k + " " + written);
            if st.pkg.sections == [] then after == st
            else
              var s := st.pkg.sections[|st.pkg.sections| - 1];
              after == Reading(st, Section(s.name, s.typ, s.anon, s.options[k := v], s.lists,
                                           if k in s.options then s.order else s.order + [k]))
  {
    hide TrimSpace, SplitKeyword, TwoTokens, Spells;
    Keywords();
    LineReads(indent, "option", k, written, v);
    assert indent + "option" + " " + k + " " + written == indent + "option " + k + " " + written;
  }

  /** A list of it grows by one value at its end. */
  lemma ListLine(st: State, indent: string, k: string, written: string, v: string)
    requires indent in {"", "\t"} && Bare(k) && Spells(written, v)
    ensures var after := Step(st, indent + "list " + k + " " + written);
            if st.pkg.sections == [] then after == st
            else
              var s := st.pkg.sections[|st.pkg.sections| - 1];
              after == Reading(st, Section(s.name, s.typ, s.anon, s.options,
                                           s.lists[k := (if k in s.lists then s.lists[k] else []) + [v]],
                                           if k in s.lists then s.order else s.order + [k]))
  {
    hide TrimSpace, SplitKeyword, TwoTokens, Spells;
    Keywords();
    LineReads(indent, "list", k, written, v);
    assert indent + "list" + " " + k + " " + written == indent + "list " + k + " " + written;
  }

  /** A section begins, under its name, or under its type and a number when it has none. */
  lemma ConfigLine(st: State, typ: string, written: string, name: string)
    requires Bare(typ) && Spells(written, name)
    ensures var numbered := Section("@" + typ + "[" + Decimal(st.anon) + "]", typ, true, map[], map[], []);
            var unnamed := State(Package(st.pkg.name, st.pkg.sections + [numbered]), st.anon + 1);
            var named := Section(name, typ, false, map[], map[], []);
            && Step(st, "config " + typ) == unnamed
            && Step(st, "config " + typ + " " + written) ==
               if name == "" then unnamed else State(Package(st.pkg.name, st.pkg.sections + [named]), st.anon)
  {
    hide TrimSpace, SplitKeyword, TwoTokens, Spells, Decimal;
    Keywords();
    LineReads("", "config", typ, written, name);
    assert "" + "config" + " " + typ + " " + written == "config " + typ + " " + written;
    AnonHeadStep(st, typ);
  }

  /** The package takes a name that is given. */
  lemma PackageLine(st: State, written: string, name: string)
    requires Spells(written, name)
    ensures Step(st, "package " + written) == if name == "" then st else State(Package(name, st.pkg.sections), st.anon)
  {
    hide TrimSpace, SplitKeyword, TwoTokens, Spells;
    Keywords();
    SpelledToken(written, name);
    KeywordOf("package", written);
    assert "package" + " " + written == "package " + written;
  }

  /** Lines of nothing, comments, and lines of any other word say nothing. */
  lemma OtherLine(st: State, raw: string)
    requires TrimSpace(raw) == "" || TrimSpace(raw)[0] == '#'
             || SplitKeyword(TrimSpace(raw)).0 !in {"package", "config", "option", "list"}
    ensures Step(st, raw) == st
  {
    hide TrimSpace, SplitKeyword, TwoTokens;
  }
}
