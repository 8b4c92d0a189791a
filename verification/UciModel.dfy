/**
 Packages of the configuration format as values (internal/ucicfg/uci.go): what reading a line
 does, what lines a package is written as, and why reading them gives the package back.
 */
module UciModel {
  import opened Strings
  import opened UciText

  datatype Section = Section(
    name: string,
    typ: string,
    anon: bool,
    options: map<string, string>,
    lists: map<string, seq<string>>,
    order: seq<string>)

  datatype Package = Package(name: string, sections: seq<Section>)

  // ----- reading

  datatype State = State(pkg: Package, anon: nat)

  function AnonName(typ: string, n: nat): string {
    "@" + typ + "[" + Decimal(n) + "]"
  }

  function SetOption(s: Section, opt: string, val: string): Section {
    s.(options := s.options[opt := val], order := if opt in s.options then s.order else s.order + [opt])
  }

  function AddItem(s: Section, opt: string, val: string): Section {
    s.(lists := s.lists[opt := (if opt in s.lists then s.lists[opt] else []) + [val]],
       order := if opt in s.lists then s.order else s.order + [opt])
  }

  function NewSection(typ: string, name: string, anon: nat): Section {
    Section(if name == "" then AnonName(typ, anon) else name, typ, name == "", map[], map[], [])
  }

  function WithLast(p: Package, s: Section): Package
    requires p.sections != []
  {
    p.(sections := p.sections[..|p.sections| - 1] + [s])
  }

  function Last(p: Package): Section
    requires p.sections != []
  {
    p.sections[|p.sections| - 1]
  }

  /** What one line of the text does. */
  function Step(st: State, raw: string): State {
    var line := TrimSpace(raw);
    if line == "" || line[0] == '#' then st
    else
      var (kw, rest) := SplitKeyword(line);
      var (first, second) := TwoTokens(rest);
      if kw == "package" then if first == "" then st else st.(pkg := st.pkg.(name := first))
      else if kw == "config" then
        State(st.pkg.(sections := st.pkg.sections + [NewSection(first, second, st.anon)]),
              if second == "" then st.anon + 1 else st.anon)
      else if st.pkg.sections == [] || first == "" then st
      else if kw == "option" then st.(pkg := WithLast(st.pkg, SetOption(Last(st.pkg), first, second)))
      else if kw == "list" then st.(pkg := WithLast(st.pkg, AddItem(Last(st.pkg), first, second)))
      else st
  }

  function Steps(st: State, lines: seq<string>): State {
    if lines == [] then st else Step(Steps(st, lines[..|lines| - 1]), lines[|lines| - 1])
  }

  lemma {:induction false} StepsJoin(st: State, a: seq<string>, b: seq<string>)
    ensures Steps(st, a + b) == Steps(Steps(st, a), b)
  {
    if b == [] {
      assert a + b == a;
    } else {
      assert (a + b)[..|a + b| - 1] == a + b[..|b| - 1];
      StepsJoin(st, a, b[..|b| - 1]);
    }
  }

  function Parsed(name: string, text: string): Package {
    Steps(State(Package(name, []), 0), Lines(text)).pkg
  }

  // ----- writing

  ghost predicate IsLeast(m: string, s: set<string>) {
    m in s && forall x :: x in s ==> x == m || Less(m, x)
  }

  lemma {:induction false} LeastExists(s: set<string>)
    requires s != {}
    ensures exists m :: IsLeast(m, s)
    decreases |s|
  {
    var m :| m in s;
    var rest := s - {m};
    if rest == {} {
      assert s == {m};
      assert IsLeast(m, s);
    } else {
      LeastExists(rest);
      var n :| IsLeast(n, rest);
      LessTotal(m, n);
      if Less(n, m) {
        assert IsLeast(n, s);
      } else {
        forall x | x in s ensures x == m || Less(m, x) {
          if x != m && x != n {
            assert x in rest;
            LessTransitive(m, n, x);
          }
        }
        assert IsLeast(m, s);
      }
    }
  }

  lemma LeastIsOne(m: string, n: string, s: set<string>)
    requires IsLeast(m, s) && IsLeast(n, s)
    ensures m == n
  {
    LessTotal(m, n);
  }

  ghost function Least(s: set<string>): (m: string)
    requires s != {}
    ensures IsLeast(m, s)
  {
    LeastExists(s);
    var m :| IsLeast(m, s);
    m
  }

  ghost function SortedKeys(s: set<string>): (r: seq<string>)
    ensures forall k :: k in r <==> k in s
    ensures forall i, j :: 0 <= i < j < |r| ==> r[i] != r[j]
    decreases |s|
  {
    if s == {} then []
    else
      var m := Least(s);
      [m] + SortedKeys(s - {m})
  }

  function KeysOf(s: Section): set<string> {
    s.options.Keys + s.lists.Keys
  }

  /** The keys of an order that have something to write, each where it comes first. */
  function FirstSeen(order: seq<string>, keys: set<string>): seq<string> {
    if order == [] then []
    else
      var before := FirstSeen(order[..|order| - 1], keys);
      var k := order[|order| - 1];
      if k in keys && k !in before then before + [k] else before
  }

  /** The keys in the order they are written: as recorded, then the others sorted. */
  ghost function Written(s: Section): seq<string> {
    FirstSeen(s.order, KeysOf(s)) + SortedKeys(KeysOf(s) - set k | k in s.order)
  }

  function ItemLines(opt: string, vals: seq<string>): seq<string> {
    seq(|vals|, i requires 0 <= i < |vals| => "\tlist " + opt + " " + Quote(vals[i]))
  }

  function EntryLines(s: Section, opt: string): seq<string> {
    if opt in s.lists then ItemLines(opt, s.lists[opt])
    else if opt in s.options then ["\toption " + opt + " " + Quote(s.options[opt])]
    else []
  }

  function Entries(s: Section, keys: seq<string>): seq<string> {
    if keys == [] then [] else Entries(s, keys[..|keys| - 1]) + EntryLines(s, keys[|keys| - 1])
  }

  function Head(s: Section): string {
    if s.anon then "config " + s.typ else "config " + s.typ + " " + Quote(s.name)
  }

  ghost function SectionLines(s: Section): seq<string> {
    [Head(s)] + Entries(s, Written(s)) + [""]
  }

  ghost function AllLines(sections: seq<Section>): seq<string> {
    if sections == [] then []
    else AllLines(sections[..|sections| - 1]) + SectionLines(sections[|sections| - 1])
  }

  ghost function PackageLines(p: Package): seq<string> {
    ["package " + p.name, ""] + AllLines(p.sections)
  }

  ghost function Text(p: Package): string {
    Unlines(PackageLines(p))
  }

  // ----- which packages can be written at all

  ghost predicate PrintableSection(s: Section) {
    && Bare(s.typ)
    && (s.anon || OneLine(s.name))
    && s.options.Keys !! s.lists.Keys
    && (forall k :: k in KeysOf(s) ==> Bare(k))
    && (forall k :: k in s.options ==> OneLine(s.options[k]))
    && (forall k :: k in s.lists ==> s.lists[k] != [])
    && (forall k, i :: k in s.lists && 0 <= i < |s.lists[k]| ==> OneLine(s.lists[k][i]))
  }

  ghost predicate Printable(p: Package) {
    && (p.name == "" || Bare(p.name))
    && forall i :: 0 <= i < |p.sections| ==> PrintableSection(p.sections[i])
  }

  // ----- what comes back

  function CutAll(vals: seq<string>): seq<string> {
    seq(|vals|, i requires 0 <= i < |vals| => Cut(vals[i]))
  }

  /** Whether a section is read back without a name: it has none, or none before an apostrophe. */
  predicate Unnamed(s: Section) {
    s.anon || Cut(s.name) == ""
  }

  /** A section with its first keys only, every value cut at its first apostrophe. */
  function Upto(s: Section, name: string, keys: seq<string>): Section {
    Section(name, s.typ, Unnamed(s),
            map k | k in s.options && k in keys :: Cut(s.options[k]),
            map k | k in s.lists && k in keys :: CutAll(s.lists[k]),
            keys)
  }

  function NameRead(s: Section, anon: nat): string {
    if Unnamed(s) then AnonName(s.typ, anon) else Cut(s.name)
  }

  ghost function ReadBack(s: Section, anon: nat): Section {
    Upto(s, NameRead(s, anon), Written(s))
  }

  function AnonCount(sections: seq<Section>): nat {
    if sections == [] then 0
    else AnonCount(sections[..|sections| - 1]) + if Unnamed(sections[|sections| - 1]) then 1 else 0
  }

  ghost function AllReadBack(sections: seq<Section>): seq<Section> {
    if sections == [] then []
    else
      var init := sections[..|sections| - 1];
      AllReadBack(init) + [ReadBack(sections[|sections| - 1], AnonCount(init))]
  }

  // ----- one line

  lemma KeywordsAreBare()
    ensures Bare("package") && Bare("config") && Bare("option") && Bare("list")
  {
  }

  /** What the printer writes as `<tab>word key 'value'` is read as that word, key and cut value. */
  lemma EntryRead(word: string, k: string, v: string)
    requires Bare(word) && Bare(k)
    ensures var rest := k + " " + Quote(v);
            && TrimSpace("\t" + (word + " " + rest)) == word + " " + rest
            && SplitKeyword(word + " " + rest) == (word, rest)
            && TwoTokens(rest) == (k, Cut(v))
  {
    hide TrimSpace, SplitKeyword, TwoTokens, Quote, Cut;
    WordAndValue(k, v);
    KeywordOf(word, k + " " + Quote(v));
  }

  lemma OptionStep(st: State, k: string, v: string)
    requires Bare(k) && st.pkg.sections != []
    ensures Step(st, "\toption " + k + " " + Quote(v)) ==
            st.(pkg := WithLast(st.pkg, SetOption(Last(st.pkg), k, Cut(v))))
  {
    hide TrimSpace, SplitKeyword, TwoTokens, Quote, Cut, SetOption, WithLast, Last;
    KeywordsAreBare();
    EntryRead("option", k, v);
    assert "\toption " + k + " " + Quote(v) == "\t" + ("option" + " " + (k + " " + Quote(v)));
  }

  lemma ItemStep(st: State, k: string, v: string)
    requires Bare(k) && st.pkg.sections != []
    ensures Step(st, "\tlist " + k + " " + Quote(v)) == st.(pkg := WithLast(st.pkg, AddItem(Last(st.pkg), k, Cut(v))))
  {
    hide TrimSpace, SplitKeyword, TwoTokens, Quote, Cut, AddItem, WithLast, Last;
    KeywordsAreBare();
    EntryRead("list", k, v);
    assert "\tlist " + k + " " + Quote(v) == "\t" + ("list" + " " + (k + " " + Quote(v)));
  }

  lemma EmptyStep(st: State)
    ensures Step(st, "") == st
  {
  }

  lemma NamedHeadStep(st: State, typ: string, name: string)
    requires Bare(typ)
    ensures Step(st, "config " + typ + " " + Quote(name)) ==
            State(st.pkg.(sections := st.pkg.sections + [NewSection(typ, Cut(name), st.anon)]),
                  st.anon + if Cut(name) == "" then 1 else 0)
  {
    hide TrimSpace, SplitKeyword, TwoTokens, Quote, Cut, NewSection;
    KeywordsAreBare();
    WordAndValue(typ, name);
    KeywordOf("config", typ + " " + Quote(name));
    assert "config " + typ + " " + Quote(name) == "config" + " " + (typ + " " + Quote(name));
  }

  lemma AnonHeadStep(st: State, typ: string)
    requires Bare(typ)
    ensures Step(st, "config " + typ) ==
            State(st.pkg.(sections := st.pkg.sections + [NewSection(typ, "", st.anon)]), st.anon + 1)
  {
    hide TrimSpace, SplitKeyword, TwoTokens, NewSection;
    KeywordsAreBare();
    WordAlone(typ);
    KeywordOf("config", typ);
    assert "config " + typ == "config" + " " + typ;
  }

  lemma PackageStep(st: State, name: string)
    requires name == "" || Bare(name)
    ensures Step(st, "package " + name) == if name == "" then st else st.(pkg := st.pkg.(name := name))
  {
    hide TrimSpace, SplitKeyword, TwoTokens;
    KeywordsAreBare();
    if name == "" {
      TrailingBlank();
      WordAlone("package");
      NoTokens();
    } else {
      WordAlone(name);
      KeywordOf("package", name);
      assert "package " + name == "package" + " " + name;
    }
  }

  lemma TrailingBlank()
    ensures TrimSpace("package " + "") == "package"
  {
    var s := "package ";
    assert s + "" == s && TrimStart(s) == s;
    assert s[..|s| - 1] == "package" && IsSpace(s[|s| - 1]);
    assert TrimEnd("package") == "package";
  }

  lemma NoTokens()
    ensures TwoTokens("") == ("", "")
  {
  }

  // ----- one key

  function Replaced(st: State, s: Section): State
    requires st.pkg.sections != []
  {
    st.(pkg := WithLast(st.pkg, s))
  }

  lemma OptionAdded(s: Section, name: string, keys: seq<string>, k: string)
    requires k in s.options && k !in keys && k !in s.lists
    ensures SetOption(Upto(s, name, keys), k, Cut(s.options[k])) == Upto(s, name, keys + [k])
  {
    hide Cut, CutAll;
  }

  /** A section in the middle of one of its lists. */
  function InList(s: Section, name: string, keys: seq<string>, k: string, items: seq<string>): Section {
    var before := Upto(s, name, keys);
    if items == [] then before
    else before.(lists := before.lists[k := CutAll(items)], order := keys + [k])
  }

  lemma NotYetThere(s: Section, name: string, keys: seq<string>, k: string)
    requires k !in keys
    ensures var u := Upto(s, name, keys); k !in u.lists && k !in u.options && u.order == keys
  {
    hide Cut, CutAll;
  }

  lemma CutOneMore(items: seq<string>, v: string)
    ensures CutAll(items + [v]) == CutAll(items) + [Cut(v)]
    ensures CutAll([v]) == [Cut(v)]
  {
    hide Cut;
  }

  lemma ItemAdded(s: Section, name: string, keys: seq<string>, k: string, items: seq<string>, v: string)
    requires k !in keys
    ensures AddItem(InList(s, name, keys, k, items), k, Cut(v)) == InList(s, name, keys, k, items + [v])
  {
    hide Cut, CutAll, Upto;
    NotYetThere(s, name, keys, k);
    CutOneMore(items, v);
    if items == [] {
      assert items + [v] == [v] && [] + [Cut(v)] == [Cut(v)];
    }
  }

  lemma ListAdded(s: Section, name: string, keys: seq<string>, k: string)
    requires k in s.lists && s.lists[k] != [] && k !in keys && k !in s.options
    ensures InList(s, name, keys, k, s.lists[k]) == Upto(s, name, keys + [k])
  {
    hide Cut, CutAll;
  }

  lemma ReplacedTwice(st: State, s: Section, t: Section)
    requires st.pkg.sections != []
    ensures Replaced(st, s).pkg.sections != [] && Last(Replaced(st, s).pkg) == s
    ensures Replaced(Replaced(st, s), t) == Replaced(st, t)
    ensures Last(st.pkg) == s ==> Replaced(st, s) == st
  {
    assert WithLast(st.pkg, s).sections[..|st.pkg.sections| - 1] == st.pkg.sections[..|st.pkg.sections| - 1];
  }

  lemma {:induction false} ItemsRead(st: State, s: Section, name: string, keys: seq<string>, k: string,
        items: seq<string>)
    requires st.pkg.sections != [] && Last(st.pkg) == Upto(s, name, keys) && Bare(k) && k !in keys
    ensures Steps(st, ItemLines(k, items)) == Replaced(st, InList(s, name, keys, k, items))
  {
    hide Step, Upto, AddItem, WithLast, Last, Bare, Quote;
    if items == [] {
      ReplacedTwice(st, Upto(s, name, keys), Upto(s, name, keys));
    } else {
      hide InList, Replaced;
      var init, v := items[..|items| - 1], items[|items| - 1];
      assert items == init + [v];
      assert ItemLines(k, items)[..|items| - 1] == ItemLines(k, init);
      ItemsRead(st, s, name, keys, k, init);
      var mid := Replaced(st, InList(s, name, keys, k, init));
      ReplacedTwice(st, InList(s, name, keys, k, init), InList(s, name, keys, k, items));
      ItemStep(mid, k, v);
      ReplacedMeans(mid, AddItem(Last(mid.pkg), k, Cut(v)));
      ItemAdded(s, name, keys, k, init, v);
    }
  }

  lemma ReplacedMeans(st: State, s: Section)
    requires st.pkg.sections != []
    ensures Replaced(st, s) == st.(pkg := WithLast(st.pkg, s))
  {
  }

  lemma KeyRead(st: State, s: Section, name: string, keys: seq<string>, k: string)
    requires PrintableSection(s) && k in KeysOf(s) && k !in keys
    requires st.pkg.sections != [] && Last(st.pkg) == Upto(s, name, keys)
    ensures Steps(st, EntryLines(s, k)) == Replaced(st, Upto(s, name, keys + [k]))
  {
    hide Step, Upto, WithLast, Bare, Quote, Cut, CutAll, InList, Replaced, SetOption, OneLine;
    if k in s.lists {
      ItemsRead(st, s, name, keys, k, s.lists[k]);
      ListAdded(s, name, keys, k);
    } else {
      var line := "\toption " + k + " " + Quote(s.options[k]);
      assert [line][..0] == [];
      OptionStep(st, k, s.options[k]);
      OptionAdded(s, name, keys, k);
      ReplacedMeans(st, Upto(s, name, keys + [k]));
    }
  }

  ghost predicate Keys(s: Section, keys: seq<string>) {
    && (forall i :: 0 <= i < |keys| ==> keys[i] in KeysOf(s))
    && forall i, j :: 0 <= i < j < |keys| ==> keys[i] != keys[j]
  }

  lemma FewerKeys(s: Section, init: seq<string>, k: string)
    requires Keys(s, init + [k])
    ensures Keys(s, init) && k !in init && k in KeysOf(s)
  {
    hide KeysOf;
    var keys := init + [k];
    assert keys[|init|] == k;
    assert forall i :: 0 <= i < |init| ==> keys[i] == init[i];
  }

  lemma {:induction false} EntriesRead(st: State, s: Section, name: string, keys: seq<string>)
    requires PrintableSection(s) && Keys(s, keys)
    requires st.pkg.sections != [] && Last(st.pkg) == Upto(s, name, [])
    ensures Steps(st, Entries(s, keys)) == Replaced(st, Upto(s, name, keys))
  {
    hide Step, Steps, Upto, EntryLines, PrintableSection, Keys, Last, Replaced, KeysOf;
    if keys == [] {
      ReplacedTwice(st, Upto(s, name, []), Upto(s, name, []));
      NoSteps(st);
    } else {
      var init, k := keys[..|keys| - 1], keys[|keys| - 1];
      assert keys == init + [k];
      FewerKeys(s, init, k);
      EntriesRead(st, s, name, init);
      var mid := Replaced(st, Upto(s, name, init));
      ReplacedTwice(st, Upto(s, name, init), Upto(s, name, keys));
      KeyRead(mid, s, name, init, k);
      StepsJoin(st, Entries(s, init), EntryLines(s, k));
    }
  }

  lemma NoSteps(st: State)
    ensures Steps(st, []) == st
  {
  }

  // ----- a section and a package

  predicate Distinct(s: seq<string>) {
    forall i, j :: 0 <= i < j < |s| ==> s[i] != s[j]
  }

  lemma {:induction false} FirstSeenIsDistinct(order: seq<string>, keys: set<string>)
    ensures forall k :: k in FirstSeen(order, keys) <==> k in keys && k in order
    ensures Distinct(FirstSeen(order, keys))
  {
    if order != [] {
      var init, k := order[..|order| - 1], order[|order| - 1];
      assert order == init + [k];
      FirstSeenIsDistinct(init, keys);
    }
  }

  lemma WrittenIsAll(s: Section)
    ensures Keys(s, Written(s))
    ensures forall k :: k in Written(s) <==> k in KeysOf(s)
  {
    hide SortedKeys, KeysOf;
    FirstSeenIsDistinct(s.order, KeysOf(s));
    var a, b := FirstSeen(s.order, KeysOf(s)), SortedKeys(KeysOf(s) - set k | k in s.order);
    assert Distinct(a);
    assert forall i, j :: 0 <= i < j < |b| ==> b[i] != b[j];
    assert forall k :: k in a ==> k in s.order;
    assert forall k :: k in b ==> k !in s.order;
    forall i, j | 0 <= i < j < |a + b| ensures (a + b)[i] != (a + b)[j] {
      if i < |a| && j >= |a| {
        assert (a + b)[i] == a[i] && (a + b)[j] == b[j - |a|];
        assert a[i] in a && b[j - |a|] in b;
        assert a[i] in s.order && b[j - |a|] !in s.order;
      } else if i >= |a| {
        assert (a + b)[i] == b[i - |a|] && (a + b)[j] == b[j - |a|];
      } else {
        assert (a + b)[i] == a[i] && (a + b)[j] == a[j];
      }
    }
    forall i | 0 <= i < |a + b| ensures (a + b)[i] in KeysOf(s) {
      assert i < |a| ==> (a + b)[i] in a;
      assert i >= |a| ==> (a + b)[i] in b;
    }
  }

  lemma HeadRead(st: State, s: Section)
    requires PrintableSection(s)
    ensures Step(st, Head(s)) ==
            State(st.pkg.(sections := st.pkg.sections + [Upto(s, NameRead(s, st.anon), [])]),
                  st.anon + if Unnamed(s) then 1 else 0)
  {
    hide Step, Quote, AnonName, KeysOf, Bare, OneLine, Cut;
    if s.anon {
      AnonHeadStep(st, s.typ);
    } else {
      NamedHeadStep(st, s.typ, s.name);
    }
    assert Upto(s, NameRead(s, st.anon), []) == NewSection(s.typ, if s.anon then "" else Cut(s.name), st.anon);
  }

  lemma SectionRead(st: State, s: Section)
    requires PrintableSection(s)
    ensures Steps(st, SectionLines(s)) ==
            State(st.pkg.(sections := st.pkg.sections + [ReadBack(s, st.anon)]), st.anon + if Unnamed(s) then 1 else 0)
  {
    hide Step, Steps, Upto, PrintableSection, Keys, Head, Entries, Written, NameRead, Unnamed;
    var name := NameRead(s, st.anon);
    HeadRead(st, s);
    var mid := Step(st, Head(s));
    OneStep(st, Head(s));
    WrittenIsAll(s);
    EntriesRead(mid, s, name, Written(s));
    StepsJoin(st, [Head(s)], Entries(s, Written(s)));
    StepsJoin(st, [Head(s)] + Entries(s, Written(s)), [""]);
    var end := Steps(mid, Entries(s, Written(s)));
    OneStep(end, "");
    EmptyStep(end);
    assert mid.pkg.sections[..|mid.pkg.sections| - 1] == st.pkg.sections;
  }

  lemma OneStep(st: State, line: string)
    ensures Steps(st, [line]) == Step(st, line)
  {
    assert [line][..0] == [];
  }

  lemma {:induction false} AllRead(st: State, sections: seq<Section>)
    requires st.pkg.sections == [] && st.anon == 0
    requires forall i :: 0 <= i < |sections| ==> PrintableSection(sections[i])
    ensures Steps(st, AllLines(sections)) == State(st.pkg.(sections := AllReadBack(sections)), AnonCount(sections))
  {
    hide Step, Steps, PrintableSection, SectionLines, ReadBack, Unnamed;
    if sections == [] {
      NoSteps(st);
    } else {
      var init, s := sections[..|sections| - 1], sections[|sections| - 1];
      assert forall i :: 0 <= i < |init| ==> init[i] == sections[i];
      AllRead(st, init);
      var mid := Steps(st, AllLines(init));
      SectionRead(mid, s);
      StepsJoin(st, AllLines(init), SectionLines(s));
    }
  }

  // ----- lines stay lines

  ghost predicate AllOneLine(lines: seq<string>) {
    forall i :: 0 <= i < |lines| ==> OneLine(lines[i])
  }

  lemma BareIsOneLine(s: string)
    requires Bare(s)
    ensures OneLine(s)
  {
    assert IsSpace('\n');
  }

  lemma LineOf(word: string, k: string, v: string)
    requires OneLine(word) && Bare(k) && OneLine(v)
    ensures OneLine(word + k + " " + Quote(v))
  {
    BareIsOneLine(k);
    EscapedHasNoNewline(v);
  }

  lemma EntryOneLine(s: Section, k: string)
    requires PrintableSection(s) && k in KeysOf(s)
    ensures AllOneLine(EntryLines(s, k))
  {
    hide Quote, Bare, OneLine;
    assert OneLine("\tlist ") && OneLine("\toption ") by {
      PlainWords();
    }
    if k in s.lists {
      forall i | 0 <= i < |s.lists[k]| ensures OneLine(ItemLines(k, s.lists[k])[i]) {
        LineOf("\tlist ", k, s.lists[k][i]);
      }
    } else {
      LineOf("\toption ", k, s.options[k]);
    }
  }

  lemma PlainWords()
    ensures OneLine("\tlist ") && OneLine("\toption ") && OneLine("config ") && OneLine("package ") && OneLine("")
  {
  }

  lemma {:induction false} EntriesOneLine(s: Section, keys: seq<string>)
    requires PrintableSection(s) && forall i :: 0 <= i < |keys| ==> keys[i] in KeysOf(s)
    ensures AllOneLine(Entries(s, keys))
  {
    hide PrintableSection, EntryLines, KeysOf, OneLine;
    if keys != [] {
      EntriesOneLine(s, keys[..|keys| - 1]);
      EntryOneLine(s, keys[|keys| - 1]);
    }
  }

  lemma SectionOneLine(s: Section)
    requires PrintableSection(s)
    ensures AllOneLine(SectionLines(s))
  {
    hide Entries, Written, KeysOf, Bare, Quote, OneLine;
    WrittenIsAll(s);
    EntriesOneLine(s, Written(s));
    PlainWords();
    if s.anon {
      AnonHeadIsOneLine(s.typ);
    } else {
      LineOf("config ", s.typ, s.name);
    }
  }

  lemma AnonHeadIsOneLine(typ: string)
    requires Bare(typ)
    ensures OneLine("config " + typ)
  {
    BareIsOneLine(typ);
  }

  lemma {:induction false} AllAreOneLine(sections: seq<Section>)
    requires forall i :: 0 <= i < |sections| ==> PrintableSection(sections[i])
    ensures AllOneLine(AllLines(sections))
  {
    if sections != [] {
      hide PrintableSection, SectionLines, OneLine;
      AllAreOneLine(sections[..|sections| - 1]);
      SectionOneLine(sections[|sections| - 1]);
    }
  }

  lemma PackageIsOneLine(p: Package)
    requires Printable(p)
    ensures AllOneLine(PackageLines(p))
  {
    hide PrintableSection, AllLines, Bare;
    AllAreOneLine(p.sections);
    if p.name != "" {
      BareIsOneLine(p.name);
    }
    assert OneLine("package " + p.name) && OneLine("");
  }

  // ----- the round trip

  ghost function AsRead(p: Package): Package {
    Package(p.name, AllReadBack(p.sections))
  }

  /** Reading what was written gives every section and key, in the order written, with every
      value and every name cut at its first apostrophe; a section left without a name is numbered. */
  lemma WrittenIsReadBack(p: Package)
    requires Printable(p)
    ensures Parsed(p.name, Text(p)) == AsRead(p)
  {
    hide Step, Steps, PrintableSection, AllLines, Lines, Unlines, Bare, AllReadBack, OneLine;
    var lines := PackageLines(p);
    PackageIsOneLine(p);
    LinesOfUnlines(lines, "");
    assert Unlines(lines) + "" == Text(p) && lines + [] == lines;
    NoLines();
    var st := State(Package(p.name, []), 0);
    PackageStep(st, p.name);
    var first := "package " + p.name;
    OneStep(st, first);
    OneStep(st, "");
    EmptyStep(st);
    StepsJoin(st, [first], [""]);
    assert [first] + [""] == [first, ""];
    StepsJoin(st, [first, ""], AllLines(p.sections));
    AllRead(st, p.sections);
  }

  lemma NoLines()
    ensures Lines("") == []
  {
  }

  ghost predicate CanonicalSection(s: Section, anon: nat) {
    && Keys(s, s.order) && (forall k :: k in KeysOf(s) ==> k in s.order)
    && s.name == NameRead(s, anon) && s.anon == Unnamed(s)
  }

  /** As the parser leaves a package: every key recorded once, anonymous sections numbered. */
  ghost predicate Canonical(p: Package) {
    forall i :: 0 <= i < |p.sections| ==> CanonicalSection(p.sections[i], AnonCount(p.sections[..i]))
  }

  ghost predicate PlainSection(s: Section) {
    && (s.anon || (s.name != "" && '\'' !in s.name))
    && (forall k :: k in s.options ==> '\'' !in s.options[k])
    && (forall k, i :: k in s.lists && 0 <= i < |s.lists[k]| ==> '\'' !in s.lists[k][i])
  }

  ghost predicate NoApostrophes(p: Package) {
    forall i :: 0 <= i < |p.sections| ==> PlainSection(p.sections[i])
  }

  lemma {:induction false} FirstSeenOfKeys(order: seq<string>, keys: set<string>)
    requires forall i :: 0 <= i < |order| ==> order[i] in keys
    requires forall i, j :: 0 <= i < j < |order| ==> order[i] != order[j]
    ensures FirstSeen(order, keys) == order
  {
    if order != [] {
      FirstSeenOfKeys(order[..|order| - 1], keys);
    }
  }

  lemma CanonicalIsWritten(s: Section, anon: nat)
    requires CanonicalSection(s, anon)
    ensures Written(s) == s.order
  {
    FirstSeenOfKeys(s.order, KeysOf(s));
    assert KeysOf(s) - (set k | k in s.order) == {};
  }

  lemma CutAllKeeps(vals: seq<string>)
    ensures CutAll(vals) == vals <==> forall i :: 0 <= i < |vals| ==> '\'' !in vals[i]
    ensures forall i :: 0 <= i < |vals| ==> '\'' !in CutAll(vals)[i]
    ensures (forall i :: 0 <= i < |vals| ==> OneLine(vals[i])) ==>
              forall i :: 0 <= i < |vals| ==> OneLine(CutAll(vals)[i])
  {
    forall i | 0 <= i < |vals|
      ensures '\'' !in CutAll(vals)[i] && (Cut(vals[i]) == vals[i] <==> '\'' !in vals[i])
      ensures OneLine(vals[i]) ==> OneLine(CutAll(vals)[i])
    {
      CutKeeps(vals[i]);
    }
    if CutAll(vals) == vals {
      forall i | 0 <= i < |vals| ensures '\'' !in vals[i] {
        assert CutAll(vals)[i] == vals[i];
      }
    }
  }

  lemma NameIsPlain(s: Section, anon: nat)
    requires CanonicalSection(s, anon)
    ensures s.anon || (s.name != "" && '\'' !in s.name)
  {
    hide Cut, Keys, AnonName;
    CutKeeps(s.name);
  }

  lemma SectionKept(s: Section, anon: nat)
    requires CanonicalSection(s, anon)
    ensures ReadBack(s, anon) == s <==> PlainSection(s)
  {
    CutKeeps(s.name);
    NameIsPlain(s, anon);
    hide Cut, CutAll, Written, Keys, NameRead;
    CanonicalIsWritten(s, anon);
    var r := ReadBack(s, anon);
    forall k | k in s.options ensures r.options[k] == s.options[k] <==> '\'' !in s.options[k] {
      CutKeeps(s.options[k]);
    }
    forall k | k in s.lists
      ensures r.lists[k] == s.lists[k] <==> forall i :: 0 <= i < |s.lists[k]| ==> '\'' !in s.lists[k][i]
    {
      CutAllKeeps(s.lists[k]);
    }
    assert r.options.Keys == s.options.Keys && r.lists.Keys == s.lists.Keys;
    if PlainSection(s) {
      assert r.options == s.options && r.lists == s.lists;
    }
  }

  lemma {:induction false} ReadBackAt(sections: seq<Section>, i: nat)
    requires i < |sections|
    ensures |AllReadBack(sections)| == |sections|
    ensures AllReadBack(sections)[i] == ReadBack(sections[i], AnonCount(sections[..i]))
  {
    hide ReadBack, AnonCount;
    var init := sections[..|sections| - 1];
    if init != [] {
      ReadBackAt(init, if i < |init| then i else 0);
      if i < |init| {
        assert init[..i] == sections[..i];
      }
    }
  }

  lemma {:induction false} AsManyRead(sections: seq<Section>)
    ensures |AllReadBack(sections)| == |sections|
  {
    if sections != [] {
      AsManyRead(sections[..|sections| - 1]);
    }
  }

  /** A canonical package comes back as it was if and only if no value holds an apostrophe. */
  lemma RoundTrip(p: Package)
    requires Printable(p) && Canonical(p)
    ensures Parsed(p.name, Text(p)) == p <==> NoApostrophes(p)
  {
    hide Printable, Parsed, Text, ReadBack, CanonicalSection, PlainSection, AllReadBack;
    WrittenIsReadBack(p);
    AsManyRead(p.sections);
    var r := AllReadBack(p.sections);
    forall i | 0 <= i < |p.sections| ensures r[i] == p.sections[i] <==> PlainSection(p.sections[i]) {
      assert CanonicalSection(p.sections[i], AnonCount(p.sections[..i]));
      ReadBackAt(p.sections, i);
      SectionKept(p.sections[i], AnonCount(p.sections[..i]));
    }
    if NoApostrophes(p) {
      assert r == p.sections;
    }
  }

  lemma ReadBackIsGood(s: Section, anon: nat)
    requires PrintableSection(s)
    ensures var r := ReadBack(s, anon);
            PrintableSection(r) && CanonicalSection(r, anon) && PlainSection(r)
            && Unnamed(r) == Unnamed(s) && r.typ == s.typ
  {
    hide Cut, CutAll, Written, Keys, AnonName, Bare;
    WrittenIsAll(s);
    var r := ReadBack(s, anon);
    CutKeeps(s.name);
    CutKeeps(Cut(s.name));
    assert r.options.Keys == s.options.Keys && r.lists.Keys == s.lists.Keys;
    assert KeysOf(r) == KeysOf(s);
    SameKeys(s, r, r.order);
    forall k | k in r.options ensures '\'' !in r.options[k] && OneLine(r.options[k]) {
      CutKeeps(s.options[k]);
    }
    forall k | k in r.lists ensures r.lists[k] == CutAll(s.lists[k]) && r.lists[k] != [] {
      CutNotEmpty(s.lists[k]);
    }
    forall k, i | k in r.lists && 0 <= i < |r.lists[k]| ensures '\'' !in r.lists[k][i] && OneLine(r.lists[k][i]) {
      CutAllKeeps(s.lists[k]);
      CutNotEmpty(s.lists[k]);
      assert r.lists[k] == CutAll(s.lists[k]);
    }
  }

  lemma CutNotEmpty(vals: seq<string>)
    ensures |CutAll(vals)| == |vals|
  {
  }

  lemma SameKeys(s: Section, r: Section, keys: seq<string>)
    requires KeysOf(r) == KeysOf(s) && Keys(s, keys)
    ensures Keys(r, keys)
  {
  }

  lemma {:induction false} SameAnonCount(a: seq<Section>, b: seq<Section>)
    requires |a| == |b| && forall i :: 0 <= i < |a| ==> Unnamed(a[i]) == Unnamed(b[i])
    ensures AnonCount(a) == AnonCount(b)
  {
    if a != [] {
      SameAnonCount(a[..|a| - 1], b[..|b| - 1]);
    }
  }

  /** What was read back once stays as it is from then on: written and read again it is the same
      package. */
  lemma ReadBackIsStable(p: Package)
    requires Printable(p)
    ensures var q := Parsed(p.name, Text(p)); Parsed(q.name, Text(q)) == q
  {
    hide Parsed, Text, ReadBack, CanonicalSection, PlainSection, PrintableSection, AllReadBack, AnonCount, Bare,
         Unnamed;
    WrittenIsReadBack(p);
    var q := AsRead(p);
    AsManyRead(p.sections);
    forall i | 0 <= i < |p.sections|
      ensures Unnamed(q.sections[i]) == Unnamed(p.sections[i]) && PlainSection(q.sections[i])
                && PrintableSection(q.sections[i])
      ensures CanonicalSection(q.sections[i], AnonCount(p.sections[..i]))
    {
      ReadBackAt(p.sections, i);
      ReadBackIsGood(p.sections[i], AnonCount(p.sections[..i]));
    }
    forall i | 0 <= i < |q.sections| ensures AnonCount(q.sections[..i]) == AnonCount(p.sections[..i]) {
      SameAnonCount(q.sections[..i], p.sections[..i]);
    }
    RoundTrip(q);
  }

  /** Without apostrophes the text itself is stable as well, whatever the package's own order. */
  lemma TextIsStable(p: Package)
    requires Printable(p) && NoApostrophes(p)
    ensures Text(Parsed(p.name, Text(p))) == Text(p)
  {
    hide Parsed, Unlines, AllLines, AllReadBack, PrintableSection, PlainSection, Bare;
    WrittenIsReadBack(p);
    SameLines(p.sections);
  }

  lemma {:induction false} SameLines(sections: seq<Section>)
    requires forall i :: 0 <= i < |sections| ==> PrintableSection(sections[i]) && PlainSection(sections[i])
    ensures AllLines(AllReadBack(sections)) == AllLines(sections)
  {
    if sections != [] {
      hide PrintableSection, PlainSection, ReadBack, SectionLines;
      var init, s := sections[..|sections| - 1], sections[|sections| - 1];
      SameLines(init);
      var r := AllReadBack(sections);
      assert r[..|r| - 1] == AllReadBack(init) && r[|r| - 1] == ReadBack(s, AnonCount(init));
      SameSectionLines(s, AnonCount(init));
    }
  }

  lemma SameSectionLines(s: Section, anon: nat)
    requires PrintableSection(s) && PlainSection(s)
    ensures SectionLines(ReadBack(s, anon)) == SectionLines(s)
  {
    hide CanonicalSection, PrintableSection, Written, Entries, NameRead, Upto;
    var r := ReadBack(s, anon);
    ReadBackIsGood(s, anon);
    CanonicalIsWritten(r, anon);
    SameValues(s, anon);
    SameEntries(s, r, Written(s));
  }

  lemma SameValues(s: Section, anon: nat)
    requires PrintableSection(s) && PlainSection(s)
    ensures var r := ReadBack(s, anon);
            r.options == s.options && r.lists == s.lists && r.order == Written(s) && Head(r) == Head(s)
  {
    hide Cut, CutAll, Written, AnonName, Bare, Quote;
    WrittenIsAll(s);
    CutKeeps(s.name);
    var r := ReadBack(s, anon);
    forall k | k in s.options ensures r.options[k] == s.options[k] {
      CutKeeps(s.options[k]);
    }
    forall k | k in s.lists ensures r.lists[k] == s.lists[k] {
      CutAllKeeps(s.lists[k]);
    }
    assert r.options.Keys == s.options.Keys && r.lists.Keys == s.lists.Keys;
    assert r.options == s.options && r.lists == s.lists;
  }

  lemma {:induction false} SameEntries(s: Section, r: Section, keys: seq<string>)
    requires r.options == s.options && r.lists == s.lists
    ensures Entries(r, keys) == Entries(s, keys)
  {
    if keys != [] {
      SameEntries(s, r, keys[..|keys| - 1]);
    }
  }

  // ----- what can be read at all

  ghost predicate LineSection(s: Section) {
    && s.name != "" && OneLine(s.name)
    && (forall k :: k in s.options ==> OneLine(s.options[k]))
    && (forall k :: k in s.lists ==> AllOneLine(s.lists[k]))
  }

  ghost predicate LineSections(sections: seq<Section>) {
    forall i :: 0 <= i < |sections| ==> LineSection(sections[i])
  }

  lemma {:induction false} QuotedIsOneLine(s: string, q: char)
    requires OneLine(s)
    ensures OneLine(ReadQuoted(s, q).0) && OneLine(ReadQuoted(s, q).1)
    decreases |s|
  {
    if s != "" {
      assert OneLine(s[1..]);
      if s[0] == '\\' && q == '"' && |s| > 1 {
        assert OneLine(s[2..]);
        QuotedIsOneLine(s[2..], q);
      } else {
        QuotedIsOneLine(s[1..], q);
      }
    }
  }

  lemma {:induction false} TrimLeftIsOneLine(s: string)
    requires OneLine(s)
    ensures OneLine(TrimLeft(s))
  {
    if s != "" {
      TrimLeftIsOneLine(s[1..]);
    }
  }

  lemma TokenIsOneLine(line: string)
    requires OneLine(line)
    ensures OneLine(Token(line).0) && OneLine(Token(line).1)
  {
    hide ReadQuoted, TrimLeft, IndexOfBlank, IsQuote;
    TrimLeftIsOneLine(line);
    var s := TrimLeft(line);
    if s != "" {
      QuotedIsOneLine(s[1..], s[0]);
    }
  }

  lemma TrimmedIsOneLine(s: string)
    requires OneLine(s)
    ensures OneLine(TrimSpace(s))
  {
    hide IsSpace;
    assert OneLine(TrimStart(s));
  }

  lemma WordsAreOneLine(raw: string)
    requires OneLine(raw)
    ensures var (kw, rest) := SplitKeyword(TrimSpace(raw));
            OneLine(TwoTokens(rest).0) && OneLine(TwoTokens(rest).1)
  {
    hide TrimSpace, Token, IndexOfBlank;
    TrimmedIsOneLine(raw);
    var line := TrimSpace(raw);
    var i := IndexOfBlank(line);
    if i < |line| {
      TrimmedIsOneLine(line[i + 1..]);
    }
    var rest := SplitKeyword(line).1;
    TokenIsOneLine(rest);
    TokenIsOneLine(Token(rest).1);
  }

  lemma {:induction false} DecimalIsOneLine(n: nat)
    ensures OneLine(Decimal(n)) && '\'' !in Decimal(n)
  {
    if n >= 10 {
      DecimalIsOneLine(n / 10);
    }
  }

  lemma NumberedName(typ: string, n: nat)
    ensures AnonName(typ, n) != "" && (OneLine(typ) ==> OneLine(AnonName(typ, n)))
    ensures '\'' !in typ ==> '\'' !in AnonName(typ, n)
  {
    hide Decimal;
    DecimalIsOneLine(n);
  }

  lemma NewIsOneLine(typ: string, name: string, anon: nat)
    requires OneLine(typ) && OneLine(name)
    ensures LineSection(NewSection(typ, name, anon))
  {
    hide AnonName, OneLine;
    NumberedName(typ, anon);
  }

  lemma ChangedIsOneLine(s: Section, opt: string, val: string)
    requires LineSection(s) && OneLine(val)
    ensures LineSection(SetOption(s, opt, val)) && LineSection(AddItem(s, opt, val))
  {
    hide OneLine;
  }

  lemma StepIsOneLine(st: State, raw: string)
    requires LineSections(st.pkg.sections) && OneLine(raw)
    ensures LineSections(Step(st, raw).pkg.sections)
  {
    hide LineSection, OneLine, TrimSpace, SplitKeyword, TwoTokens, NewSection, SetOption, AddItem;
    WordsAreOneLine(raw);
    var (kw, rest) := SplitKeyword(TrimSpace(raw));
    var (first, second) := TwoTokens(rest);
    NewIsOneLine(first, second, st.anon);
    if st.pkg.sections != [] {
      ChangedIsOneLine(Last(st.pkg), first, second);
    }
  }

  lemma {:induction false} StepsAreOneLine(st: State, lines: seq<string>)
    requires LineSections(st.pkg.sections) && AllOneLine(lines)
    ensures LineSections(Steps(st, lines).pkg.sections)
  {
    if lines != [] {
      hide Step, LineSections, OneLine;
      StepsAreOneLine(st, lines[..|lines| - 1]);
      StepIsOneLine(Steps(st, lines[..|lines| - 1]), lines[|lines| - 1]);
    }
  }

  lemma {:induction false} LinesAreOneLine(text: string)
    ensures AllOneLine(Lines(text))
    decreases |text|
  {
    if text != "" {
      var i := IndexOfNewline(text);
      if i < |text| {
        LinesAreOneLine(text[i + 1..]);
      } else {
        assert text[..i] == text;
      }
    }
  }

  /** Whatever the text, no section is left without a name, and no name or value holds a
      newline. */
  lemma ParsedIsOneLine(name: string, text: string)
    ensures LineSections(Parsed(name, text).sections)
  {
    hide Step, Steps, Lines, LineSection, OneLine;
    LinesAreOneLine(text);
    StepsAreOneLine(State(Package(name, []), 0), Lines(text));
  }
}
