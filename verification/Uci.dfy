/** The reader and the printer of the configuration format (internal/ucicfg/uci.go) as they
    work: sections that are filled in place, and a text that is built up. */
module Uci {
  import opened Strings
  import opened UciText
  import M = UciModel

  class Section {
    var name: string
    var typ: string
    var anon: bool
    var options: map<string, string>
    var lists: map<string, seq<string>>
    var order: seq<string>

    function Value(): M.Section
      reads this
    {
      M.Section(name, typ, anon, options, lists, order)
    }

    constructor (typ: string, name: string)
      ensures Value() == M.Section(name, typ, false, map[], map[], [])
    {
      this.typ, this.name, this.anon := typ, name, false;
      options, lists, order := map[], map[], [];
    }

    /** Records an option, remembering where it was first seen. */
    method Set(opt: string, val: string)
      modifies this
      ensures Value() == M.SetOption(old(Value()), opt, val)
      ensures opt in options && options[opt] == val
    {
      if opt !in options {
        order := order + [opt];
      }
      options := options[opt := val];
    }

    method Add(opt: string, val: string)
      modifies this
      ensures Value() == M.AddItem(old(Value()), opt, val)
    {
      if opt !in lists {
        order := order + [opt];
        lists := lists[opt := []];
      }
      lists := lists[opt := lists[opt] + [val]];
    }
  }

  ghost predicate Holds(sections: seq<Section>, values: seq<M.Section>)
    reads set s | s in sections
  {
    && |sections| == |values|
    && (forall i, j :: 0 <= i < j < |sections| ==> sections[i] != sections[j])
    && forall i :: 0 <= i < |sections| ==> sections[i].Value() == values[i]
  }

  class Package {
    var name: string
    var sections: seq<Section>

    constructor (name: string)
      ensures this.name == name && sections == []
    {
      this.name := name;
      sections := [];
    }

    ghost predicate Is(p: M.Package)
      reads this, set s | s in sections
    {
      name == p.name && Holds(sections, p.sections)
    }

    method Append(s: Section, ghost p: M.Package)
      requires Is(p) && s !in sections
      modifies `sections
      ensures sections == old(sections) + [s]
      ensures Is(p.(sections := p.sections + [s.Value()]))
    {
      sections := sections + [s];
    }

    /** Sets an option of the section being filled, the last one. */
    method SetLast(opt: string, val: string, ghost p: M.Package)
      requires Is(p) && sections != []
      modifies sections[|sections| - 1]
      ensures Is(M.WithLast(p, M.SetOption(M.Last(p), opt, val)))
    {
      hide M.SetOption;
      sections[|sections| - 1].Set(opt, val);
    }

    method AddLast(opt: string, val: string, ghost p: M.Package)
      requires Is(p) && sections != []
      modifies sections[|sections| - 1]
      ensures Is(M.WithLast(p, M.AddItem(M.Last(p), opt, val)))
    {
      hide M.AddItem;
      sections[|sections| - 1].Add(opt, val);
    }
  }

  method ReadTwo(s: string) returns (first: string, second: string)
    ensures (first, second) == TwoTokens(s)
  {
    var rest, dropped;
    first, rest := NextToken(s);
    second, dropped := NextToken(rest);
  }

  /** A section as its head line announces it; one without a name gets one and is counted. */
  method Announced(typ: string, name: string, anon: nat) returns (s: Section, counted: nat)
    ensures fresh(s) && s.Value() == M.NewSection(typ, name, anon)
    ensures counted == if name == "" then anon + 1 else anon
  {
    hide M.AnonName;
    s := new Section(typ, name);
    counted := anon;
    if name == "" {
      s.anon := true;
      s.name := M.AnonName(typ, anon);
      counted := anon + 1;
    }
  }

  /** One line of the file. */
  method ParseLine(pkg: Package, anon: nat, raw: string, ghost st: M.State) returns (counted: nat)
    requires pkg.Is(st.pkg) && st.anon == anon
    modifies pkg, set s | s in pkg.sections
    ensures fresh(set s | s in pkg.sections && s !in old(pkg.sections))
    ensures pkg.Is(M.Step(st, raw).pkg) && M.Step(st, raw).anon == counted
  {
    hide TwoTokens, SplitKeyword, TrimSpace, M.NewSection, M.SetOption, M.AddItem, M.WithLast, M.Last;
    counted := anon;
    var line := TrimSpace(raw);
    if line == "" || line[0] == '#' {
      return;
    }
    var (kw, rest) := SplitKeyword(line);
    var first, second := ReadTwo(rest);
    if kw == "package" {
      if first != "" {
        pkg.name := first;
      }
    } else if kw == "config" {
      var s;
      s, counted := Announced(first, second, anon);
      pkg.Append(s, st.pkg);
    } else if pkg.sections != [] && first != "" {
      if kw == "option" {
        pkg.SetLast(first, second, st.pkg);
      } else if kw == "list" {
        pkg.AddLast(first, second, st.pkg);
      }
    }
  }

  lemma StepsNext(st: M.State, lines: seq<string>, i: nat)
    requires i < |lines|
    ensures M.Steps(st, lines[..i + 1]) == M.Step(M.Steps(st, lines[..i]), lines[i])
  {
    assert lines[..i + 1][..i] == lines[..i];
  }

  /** Reads a file. */
  method Parse(name: string, text: string) returns (pkg: Package)
    ensures pkg.Is(M.Parsed(name, text))
  {
    pkg := new Package(name);
    var anon := 0;
    var lines := Lines(text);
    ghost var start := M.State(M.Package(name, []), 0);
    for i := 0 to |lines|
      invariant fresh(pkg) && fresh(set s | s in pkg.sections)
      invariant pkg.Is(M.Steps(start, lines[..i]).pkg) && M.Steps(start, lines[..i]).anon == anon
    {
      hide M.Step, M.Steps, Package.Is;
      StepsNext(start, lines, i);
      anon := ParseLine(pkg, anon, lines[i], M.Steps(start, lines[..i]));
    }
    assert lines[..|lines|] == lines;
  }

  // ----- printing

  method WriteItems(b: string, opt: string, vals: seq<string>) returns (longer: string)
    ensures longer == b + Unlines(M.ItemLines(opt, vals))
  {
    hide Quote;
    longer := b;
    ghost var lines := M.ItemLines(opt, vals);
    for i := 0 to |vals|
      invariant longer == b + Unlines(lines[..i])
    {
      assert lines[..i + 1][..i] == lines[..i];
      longer := longer + "\tlist " + opt + " " + Quote(vals[i]) + "\n";
    }
    assert lines[..|lines|] == lines;
  }

  /** Writes one key unless it was written before. */
  method Emit(s: Section, seen: set<string>, opt: string, b: string) returns (longer: string, marked: set<string>)
    ensures marked == seen + {opt}
    ensures longer == b + if opt in seen then "" else Unlines(M.EntryLines(s.Value(), opt))
  {
    hide Quote, Unlines, M.ItemLines;
    longer, marked := b, seen + {opt};
    OneLineText("");
    if opt in seen {
      return;
    }
    if opt in s.lists {
      longer := WriteItems(b, opt, s.lists[opt]);
      return;
    }
    if opt in s.options {
      longer := b + "\toption " + opt + " " + Quote(s.options[opt]) + "\n";
      OneLineText("\toption " + opt + " " + Quote(s.options[opt]));
    }
  }

  lemma OneLineText(line: string)
    ensures Unlines([line]) == line + "\n" && Unlines([]) == ""
  {
    assert [line][..0] == [];
  }

  method TakeLeast(keys: set<string>) returns (m: string)
    requires keys != {}
    ensures m in keys && M.SortedKeys(keys) == [m] + M.SortedKeys(keys - {m})
  {
    hide Less;
    M.LeastExists(keys);
    m :| m in keys && forall x :: x in keys ==> x == m || Less(m, x);
    assert M.IsLeast(m, keys);
    M.LeastIsOne(m, M.Least(keys), keys);
  }

  /** Takes the keys out of a set in sorted order. */
  method Sort(keys: set<string>) returns (sorted: seq<string>)
    ensures sorted == M.SortedKeys(keys)
  {
    hide M.SortedKeys;
    sorted := [];
    var left := keys;
    while left != {}
      invariant sorted + M.SortedKeys(left) == M.SortedKeys(keys)
      decreases |left|
    {
      var m := TakeLeast(left);
      Associative(sorted, [m], M.SortedKeys(left - {m}));
      sorted := sorted + [m];
      left := left - {m};
    }
    NothingSorted();
    assert sorted + [] == sorted;
  }

  lemma Associative(a: seq<string>, b: seq<string>, c: seq<string>)
    ensures a + (b + c) == (a + b) + c
  {
  }

  lemma NothingSorted()
    ensures M.SortedKeys({}) == []
  {
  }

  lemma EntriesNext(v: M.Section, keys: seq<string>, k: string)
    ensures Unlines(M.Entries(v, keys + [k])) == Unlines(M.Entries(v, keys)) + Unlines(M.EntryLines(v, k))
  {
    hide Unlines, M.EntryLines;
    assert (keys + [k])[..|keys|] == keys;
    UnlinesJoin(M.Entries(v, keys), M.EntryLines(v, k));
  }

  lemma RecordedNext(v: M.Section, order: seq<string>, k: string)
    ensures var keys := M.KeysOf(v);
            Unlines(M.Entries(v, M.FirstSeen(order + [k], keys))) ==
            Unlines(M.Entries(v, M.FirstSeen(order, keys))) + if k in order then "" else Unlines(M.EntryLines(v, k))
  {
    hide Unlines, Quote, M.Entries;
    var keys := M.KeysOf(v);
    assert (order + [k])[..|order|] == order;
    M.FirstSeenIsDistinct(order, keys);
    EntriesNext(v, M.FirstSeen(order, keys), k);
    OneLineText("");
    if k !in keys {
      assert M.EntryLines(v, k) == [];
    }
  }

  lemma SectionText(v: M.Section)
    ensures Unlines(M.SectionLines(v)) == Unlines([M.Head(v)]) + Unlines(M.Entries(v, M.Written(v))) + "\n"
  {
    hide Unlines, M.Entries, M.Written, M.Head;
    UnlinesJoin([M.Head(v)], M.Entries(v, M.Written(v)));
    UnlinesJoin([M.Head(v)] + M.Entries(v, M.Written(v)), [""]);
    OneLineText("");
    assert "" + "\n" == "\n";
  }

  /** Writes the keys whose place was recorded. */
  method WriteRecorded(s: Section, b: string) returns (longer: string, seen: set<string>)
    ensures seen == set k | k in s.order
    ensures longer == b + Unlines(M.Entries(s.Value(), M.FirstSeen(s.order, M.KeysOf(s.Value()))))
  {
    hide Quote, M.EntryLines, M.FirstSeen, M.Entries, M.KeysOf, Unlines;
    ghost var v := s.Value();
    ghost var keys := M.KeysOf(v);
    longer, seen := b, {};
    NoEntries(v);
    for i := 0 to |s.order|
      invariant seen == set k | k in s.order[..i]
      invariant longer == b + Unlines(M.Entries(v, M.FirstSeen(s.order[..i], keys)))
    {
      assert s.order[..i + 1] == s.order[..i] + [s.order[i]];
      RecordedNext(v, s.order[..i], s.order[i]);
      longer, seen := Emit(s, seen, s.order[i], longer);
    }
    assert s.order[..|s.order|] == s.order;
  }

  lemma NoEntries(v: M.Section)
    ensures Unlines(M.Entries(v, M.FirstSeen([], M.KeysOf(v)))) == ""
  {
  }

  /** Writes the keys whose place was not, sorted. */
  method WriteRest(s: Section, before: set<string>, b: string, ghost text: string) returns (longer: string)
    requires before == set k | k in s.order
    requires b == text + Unlines(M.Entries(s.Value(), M.FirstSeen(s.order, M.KeysOf(s.Value()))))
    ensures longer == text + Unlines(M.Entries(s.Value(), M.Written(s.Value())))
  {
    hide Quote, M.EntryLines, M.FirstSeen, M.SortedKeys, M.Entries, Unlines;
    ghost var v := s.Value();
    longer := b;
    var seen := before;
    var rest := Sort(s.options.Keys + s.lists.Keys - seen);
    ghost var recorded := M.FirstSeen(s.order, M.KeysOf(v));
    assert recorded + rest[..0] == recorded;
    for i := 0 to |rest|
      invariant forall j :: i <= j < |rest| ==> rest[j] !in seen
      invariant longer == text + Unlines(M.Entries(v, recorded + rest[..i]))
    {
      assert recorded + rest[..i + 1] == (recorded + rest[..i]) + [rest[i]];
      EntriesNext(v, recorded + rest[..i], rest[i]);
      longer, seen := Emit(s, seen, rest[i], longer);
    }
    assert rest[..|rest|] == rest;
  }

  method WriteSection(s: Section, b: string) returns (longer: string)
    ensures longer == b + Unlines(M.SectionLines(s.Value()))
  {
    hide Quote, M.EntryLines, M.SortedKeys, M.Written, M.SectionLines, M.FirstSeen, M.Entries, Unlines;
    ghost var v := s.Value();
    if s.anon {
      longer := b + "config " + s.typ + "\n";
    } else {
      longer := b + "config " + s.typ + " " + Quote(s.name) + "\n";
    }
    ghost var text := b + M.Head(v) + "\n";
    assert longer == text;
    var seen;
    longer, seen := WriteRecorded(s, longer);
    longer := WriteRest(s, seen, longer, text);
    longer := longer + "\n";
    OneLineText(M.Head(v));
    SectionText(v);
  }

  /** Writes a package the way it is stored. */
  method Print(pkg: Package, ghost p: M.Package) returns (text: string)
    requires pkg.Is(p)
    ensures text == M.Text(p)
  {
    hide Unlines, M.SectionLines;
    text := "package " + pkg.name + "\n\n";
    ghost var top := ["package " + pkg.name, ""];
    TopText(pkg.name);
    assert top + M.AllLines([]) == top;
    for i := 0 to |pkg.sections|
      invariant text == Unlines(top + M.AllLines(p.sections[..i]))
    {
      var s := pkg.sections[i];
      text := WriteSection(s, text);
      assert p.sections[..i + 1][..i] == p.sections[..i];
      UnlinesJoin(top + M.AllLines(p.sections[..i]), M.SectionLines(s.Value()));
      assert top + M.AllLines(p.sections[..i + 1]) == (top + M.AllLines(p.sections[..i])) + M.SectionLines(s.Value());
    }
    assert p.sections[..|p.sections|] == p.sections;
  }

  lemma TopText(name: string)
    ensures Unlines(["package " + name, ""]) == "package " + name + "\n\n"
  {
    var a := "package " + name;
    OneLineText(a);
    OneLineText("");
    UnlinesJoin([a], [""]);
    assert [a] + [""] == [a, ""];
    assert "" + "\n" == "\n" && a + "\n" + "\n" == a + "\n\n";
  }
}
