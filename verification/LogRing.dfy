/**
 The log and the error journal (internal/daemon/logring.go): two rings in memory, and the
 collapsing of a failure that repeats.
 */
module LogRing {
  import opened Optional
  import opened Strings
  import opened Rings

  datatype Level = Debug | Info | Warn | Error {
    function Rank(): int {
      match this
      case Debug => 0
      case Info => 1
      case Warn => 2
      case Error => 3
    }

    predicate AtLeast(min: Level) {
      Rank() >= min.Rank()
    }
  }

  /** A reading of the clock, which formats to something. */
  type Stamp = s: string | s != "" witness "0"

  datatype LogEntry = LogEntry(time: string, level: Level, source: string, step: string, message: string)

  /** What a failure says beyond its message: the hint and the keys for translating both. */
  datatype Advice = Advice(hint: string, code: string, args: seq<string>, hintCode: string, hintArgs: seq<string>)

  datatype ErrorEntry = ErrorEntry(
    time: string, source: string, step: string, message: string, detail: string, advice: Advice, repeats: nat)

  datatype LastError = LastError(time: string, step: string, message: string, advice: Advice)

  datatype Failure = Failure(
    time: Stamp, source: string, step: string, message: string, detail: string, advice: Advice)

  const UNUSED := LogEntry("", Debug, "", "", "")
  const NO_ADVICE := Advice("", "", [], "", [])
  const NO_ERROR := ErrorEntry("", "", "", "", "", NO_ADVICE, 0)
  const JOURNAL: nat := 100

  // ----- run-length encoding

  predicate SameKind(e: ErrorEntry, f: Failure) {
    e.source == f.source && e.step == f.step && e.message == f.message
  }

  function TrimNewlines(s: string): string {
    if s != "" && s[|s| - 1] == '\n' then TrimNewlines(s[..|s| - 1]) else s
  }

  function Filed(f: Failure): ErrorEntry {
    ErrorEntry(f.time, f.source, f.step, f.message, TrimNewlines(f.detail), f.advice, 0)
  }

  /** The entry after the same failure came again: counted, with the newest time and the last detail. */
  function Again(e: ErrorEntry, f: Failure): ErrorEntry {
    e.(repeats := e.repeats + 1, time := f.time, detail := if f.detail != "" then TrimNewlines(f.detail) else e.detail)
  }

  predicate Continues(runs: seq<ErrorEntry>, f: Failure) {
    runs != [] && SameKind(runs[|runs| - 1], f)
  }

  function WithFailure(runs: seq<ErrorEntry>, f: Failure): seq<ErrorEntry> {
    if Continues(runs, f) then runs[..|runs| - 1] + [Again(runs[|runs| - 1], f)] else runs + [Filed(f)]
  }

  /** The runs of equal failures, in order. */
  function Runs(failures: seq<Failure>): seq<ErrorEntry> {
    if failures == [] then [] else WithFailure(Runs(failures[..|failures| - 1]), failures[|failures| - 1])
  }

  datatype Kind = Kind(source: string, step: string, message: string)

  function KindOf(e: ErrorEntry): Kind {
    Kind(e.source, e.step, e.message)
  }

  function Kinds(failures: seq<Failure>): seq<Kind> {
    seq(|failures|, i requires 0 <= i < |failures| =>
      Kind(failures[i].source, failures[i].step, failures[i].message))
  }

  function Times(k: Kind, n: nat): seq<Kind> {
    seq(n, _ => k)
  }

  /** The runs written out again. */
  function Expanded(runs: seq<ErrorEntry>): seq<Kind> {
    if runs == [] then []
    else
      var e := runs[|runs| - 1];
      Expanded(runs[..|runs| - 1]) + Times(KindOf(e), e.repeats + 1)
  }

  ghost predicate NeighboursDiffer(runs: seq<ErrorEntry>) {
    forall i :: 0 <= i < |runs| - 1 ==> KindOf(runs[i]) != KindOf(runs[i + 1])
  }

  /** The runs are the run-length encoding of the failures: written out they are the failures
      one by one, and neighbouring runs differ. */
  lemma {:induction false} RunsEncodeFailures(failures: seq<Failure>)
    ensures Expanded(Runs(failures)) == Kinds(failures)
    ensures NeighboursDiffer(Runs(failures))
  {
    if failures != [] {
      hide Runs;
      var init, f := failures[..|failures| - 1], failures[|failures| - 1];
      RunsEncodeFailures(init);
      RunsNext(init, f);
      assert failures == init + [f];
      assert Kinds(failures) == Kinds(init) + [Kind(f.source, f.step, f.message)];
      OneMoreEncoded(Runs(init), f);
    }
  }

  /** What the newest run says: the last failure, with the time of the last and the last detail
      that there was, and one more than the run before when that was of the same kind. */
  lemma NewestRun(failures: seq<Failure>, f: Failure)
    ensures var before, after := Runs(failures), Runs(failures + [f]);
            && after != []
            && var e := after[|after| - 1];
               && e.time == f.time && e.source == f.source && e.step == f.step && e.message == f.message
               && (f.detail != "" ==> e.detail == TrimNewlines(f.detail))
               && (before != [] && before[|before| - 1].source == f.source && before[|before| - 1].step == f.step
                   && before[|before| - 1].message == f.message ==>
                     && after[..|after| - 1] == before[..|before| - 1]
                     && e.repeats == before[|before| - 1].repeats + 1 && e.advice == before[|before| - 1].advice)
               && (before == [] || before[|before| - 1].source != f.source || before[|before| - 1].step != f.step
                   || before[|before| - 1].message != f.message ==>
                     after[..|after| - 1] == before && e.repeats == 0 && e.advice == f.advice)
  {
    hide Runs, TrimNewlines;
    RunsNext(failures, f);
  }

  lemma RunsNext(failures: seq<Failure>, f: Failure)
    ensures Runs(failures + [f]) == WithFailure(Runs(failures), f)
  {
    assert (failures + [f])[..|failures|] == failures;
  }

  lemma OneMoreEncoded(runs: seq<ErrorEntry>, f: Failure)
    requires NeighboursDiffer(runs)
    ensures Expanded(WithFailure(runs, f)) == Expanded(runs) + [Kind(f.source, f.step, f.message)]
    ensures NeighboursDiffer(WithFailure(runs, f))
  {
    var more := WithFailure(runs, f);
    var k := Kind(f.source, f.step, f.message);
    assert more[..|more| - 1] == if Continues(runs, f) then runs[..|runs| - 1] else runs;
    if Continues(runs, f) {
      var n := runs[|runs| - 1].repeats;
      assert Times(k, n + 2) == Times(k, n + 1) + [k];
    } else {
      assert Times(k, 1) == [k];
    }
  }

  // ----- what a failure writes to the log

  function Split(s: string): seq<string> {
    if s == "" then [""]
    else
      var rest := Split(s[1..]);
      if s[0] == '\n' then [""] + rest else [[s[0]] + rest[0]] + rest[1..]
  }

  function DetailLines(f: Failure, lines: seq<string>): seq<LogEntry> {
    seq(|lines|, i requires 0 <= i < |lines| => LogEntry(f.time, Error, f.source, f.step, "    " + lines[i]))
  }

  /** The first of its kind: the message, the detail indented, the hint. */
  function Headline(f: Failure): seq<LogEntry> {
    [LogEntry(f.time, Error, f.source, f.step, f.message)]
    + (if f.detail != "" then DetailLines(f, Split(TrimNewlines(f.detail))) else [])
    + (if f.advice.hint != "" then [LogEntry(f.time, Warn, f.source, f.step, f.advice.hint)] else [])
  }

  function RepeatLine(f: Failure, count: nat): LogEntry {
    LogEntry(f.time, Warn, f.source, f.step, f.message + " (" + Decimal(count) + " times now)")
  }

  function FailLines(f: Failure, count: nat): seq<LogEntry> {
    if count <= 1 then Headline(f) else if count % 10 == 0 then [RepeatLine(f, count)] else []
  }

  function CountNow(runs: seq<ErrorEntry>): nat
    requires runs != []
  {
    runs[|runs| - 1].repeats + 1
  }

  /** Everything a sequence of failures writes. */
  function Written(failures: seq<Failure>): seq<LogEntry> {
    if failures == [] then []
    else Written(failures[..|failures| - 1]) + FailLines(failures[|failures| - 1], CountNow(Runs(failures)))
  }

  function Repeated(f: Failure, k: nat): seq<Failure> {
    seq(k, _ => f)
  }

  /** The lines for the tenth, twentieth, … of equal failures among `k`. */
  function TenLines(f: Failure, k: nat): seq<LogEntry> {
    seq(k / 10, i requires 0 <= i < k / 10 => RepeatLine(f, 10 * (i + 1)))
  }

  lemma RepeatedNext(failures: seq<Failure>, f: Failure, k: nat)
    requires k > 0
    ensures failures + Repeated(f, k) == (failures + Repeated(f, k - 1)) + [f]
    ensures failures + Repeated(f, 0) == failures
  {
  }

  lemma WrittenNext(failures: seq<Failure>, f: Failure)
    ensures Written(failures + [f]) == Written(failures) + FailLines(f, CountNow(Runs(failures + [f])))
  {
    assert (failures + [f])[..|failures|] == failures;
  }

  lemma {:induction false} RunOfIdentical(failures: seq<Failure>, f: Failure, k: nat)
    requires k > 0 && !Continues(Runs(failures), f)
    ensures var runs := Runs(failures + Repeated(f, k));
            Continues(runs, f) && CountNow(runs) == k
  {
    hide Runs, Repeated;
    RepeatedNext(failures, f, k);
    var before := failures + Repeated(f, k - 1);
    RunsNext(before, f);
    if k > 1 {
      RunOfIdentical(failures, f, k - 1);
    }
  }

  /** However often a failure comes in a row, it is written out once, and from then on one line
      per ten. */
  lemma {:induction false} IdenticalFailures(failures: seq<Failure>, f: Failure, k: nat)
    requires k > 0 && !Continues(Runs(failures), f)
    ensures Written(failures + Repeated(f, k)) == Written(failures) + Headline(f) + TenLines(f, k)
  {
    hide Runs, Written, Headline, RepeatLine, Continues, Repeated;
    RepeatedNext(failures, f, k);
    RunOfIdentical(failures, f, k);
    WrittenNext(failures + Repeated(f, k - 1), f);
    if k == 1 {
      assert TenLines(f, 1) == [];
    } else {
      IdenticalFailures(failures, f, k - 1);
      OneMoreTen(f, k);
    }
  }

  lemma OneMoreTen(f: Failure, k: nat)
    requires k > 1
    ensures TenLines(f, k) == TenLines(f, k - 1) + FailLines(f, k)
  {
    if k % 10 == 0 {
      assert k / 10 == (k - 1) / 10 + 1 && 10 * (k / 10) == k;
    } else {
      assert k / 10 == (k - 1) / 10;
    }
  }

  // ----- queries

  /** Unset parts select everything. */
  datatype Query = Query(minLevel: Option<Level>, source: string, step: string, limit: int)

  predicate Selects(q: Query, e: LogEntry) {
    && (q.minLevel.Some? ==> e.level.AtLeast(q.minLevel.value))
    && (q.source != "" ==> e.source == q.source)
    && (q.step != "" ==> e.step == q.step)
  }

  function Matching(entries: seq<LogEntry>, q: Query): seq<LogEntry> {
    if entries == [] then []
    else
      var init := Matching(entries[..|entries| - 1], q);
      if Selects(q, entries[|entries| - 1]) then init + [entries[|entries| - 1]] else init
  }

  /** Which lines a query finds: those of its source and step, and at least as severe as asked for,
      so that one for warnings finds errors as well. */
  lemma {:induction false} MatchingMeans(entries: seq<LogEntry>, q: Query)
    ensures forall e :: e in Matching(entries, q) <==>
              && e in entries
              && (q.minLevel == Some(Info) ==> e.level in {Info, Warn, Error})
              && (q.minLevel == Some(Warn) ==> e.level in {Warn, Error})
              && (q.minLevel == Some(Error) ==> e.level == Error)
              && (q.source != "" ==> e.source == q.source) && (q.step != "" ==> e.step == q.step)
  {
    if entries != [] {
      var init, last := entries[..|entries| - 1], entries[|entries| - 1];
      MatchingMeans(init, q);
      assert entries == init + [last];
    }
  }

  /** They are found in the order they were written in. */
  lemma {:induction false} MatchingJoins(a: seq<LogEntry>, b: seq<LogEntry>, q: Query)
    ensures Matching(a + b, q) == Matching(a, q) + Matching(b, q)
  {
    if b == [] {
      assert a + b == a;
    } else {
      assert (a + b)[..|a + b| - 1] == a + b[..|b| - 1];
      MatchingJoins(a, b[..|b| - 1], q);
    }
  }

  function Limited<T>(s: seq<T>, limit: int): seq<T> {
    if limit > 0 then LastOf(s, limit) else s
  }

  // ----- the rings

  class Log {
    const entries: array<LogEntry>
    const errors: array<ErrorEntry>
    var next: nat
    var full: bool
    var errNext: nat
    var errFull: bool
    var lastError: Option<LastError>
    ghost var emitted: seq<LogEntry>
    ghost var filed: seq<Failure>

    ghost predicate LogValid()
      reads `next, `full, `emitted, entries
    {
      && Keeps(entries[..], next, full, emitted, UNUSED)
      && forall i :: 0 <= i < |emitted| ==> emitted[i].time != ""
    }

    ghost predicate JournalValid()
      reads `errNext, `errFull, `filed, `lastError, errors
    {
      && errors.Length == JOURNAL
      && Keeps(errors[..], errNext, errFull, Runs(filed), NO_ERROR)
      && (lastError.Some? ==> filed != [] && lastError.value == Banner(Runs(filed)[|Runs(filed)| - 1]))
    }

    ghost predicate Valid()
      reads this, entries, errors
    {
      LogValid() && JournalValid()
    }

    constructor (size: int)
      ensures Valid() && fresh(entries) && fresh(errors)
      ensures entries.Length == (if size <= 0 then 500 else size)
      ensures emitted == [] && filed == [] && lastError == None
    {
      var n: nat := if size <= 0 then 500 else size;
      entries := new LogEntry[n](_ => UNUSED);
      errors := new ErrorEntry[JOURNAL](_ => NO_ERROR);
      next, full, errNext, errFull, lastError := 0, false, 0, false, None;
      emitted, filed := [], [];
      new;
      EmptyKeeps(entries[..], UNUSED);
      EmptyKeeps(errors[..], NO_ERROR);
    }

    method Emit(now: Stamp, level: Level, source: string, step: string, message: string)
      requires LogValid()
      modifies entries, `next, `full, `emitted
      ensures LogValid() && emitted == old(emitted) + [LogEntry(now, level, source, step, message)]
    {
      hide Keeps;
      KeepsMeans(entries[..], next, full, emitted, UNUSED);
      var e := LogEntry(now, level, source, step, message);
      Rings.Written(entries[..], next, full, emitted, UNUSED, e);
      ghost var before := entries[..];
      entries[next] := e;
      assert entries[..] == before[next := e];
      next := Following(next, entries.Length);
      if next == 0 {
        full := true;
      }
      emitted := emitted + [e];
    }

    /** The slot of the newest entry of the journal. */
    method NewestError() returns (idx: nat, found: bool)
      requires JournalValid()
      ensures found == (filed != [])
      ensures found ==> idx < errors.Length && idx == Newest(errNext, errors.Length)
      ensures found ==> errors[idx] == Runs(filed)[|Runs(filed)| - 1]
    {
      hide Runs;
      RunsAreNotBlank(filed);
      if errNext == 0 && !errFull {
        return 0, false;
      }
      idx := Newest(errNext, errors.Length);
      Renewed(errors[..], errNext, errFull, Runs(filed), NO_ERROR, NO_ERROR);
      return idx, errors[idx].time != "";
    }

    /** Files a failure, and says how often it has come in a row. */
    method FileError(f: Failure) returns (count: nat)
      requires JournalValid()
      modifies errors, `errNext, `errFull, `lastError, `filed
      ensures JournalValid() && filed == old(filed) + [f]
      ensures count == CountNow(Runs(filed))
      ensures lastError.Some?
    {
      hide Keeps, Runs;
      RunsNext(filed, f);
      RunsAreNotBlank(filed);
      KeepsMeans(errors[..], errNext, errFull, Runs(filed), NO_ERROR);
      ghost var runs := Runs(filed);
      ghost var before := errors[..];
      var idx, found := NewestError();
      if found && SameKind(errors[idx], f) {
        var e := Again(errors[idx], f);
        Renewed(before, errNext, errFull, runs, NO_ERROR, e);
        errors[idx] := e;
        assert errors[..] == before[idx := e];
        filed := filed + [f];
        lastError := Some(Banner(e));
        return e.repeats + 1;
      }
      var e := Filed(f);
      Rings.Written(before, errNext, errFull, runs, NO_ERROR, e);
      errors[errNext] := e;
      assert errors[..] == before[errNext := e];
      errNext := Following(errNext, errors.Length);
      if errNext == 0 {
        errFull := true;
      }
      filed := filed + [f];
      lastError := Some(Banner(e));
      return 1;
    }

    /** Records a failure in the journal and says so in the log. */
    method Fail(f: Failure)
      requires Valid()
      modifies this, entries, errors
      ensures Valid() && filed == old(filed) + [f]
      ensures emitted == old(emitted) + FailLines(f, CountNow(Runs(filed)))
    {
      hide LogValid, JournalValid, Runs;
      var count := FileError(f);
      if count > 1 {
        if count % 10 == 0 {
          Emit(f.time, Warn, f.source, f.step, f.message + " (" + Decimal(count) + " times now)");
        }
        return;
      }
      Emit(f.time, Error, f.source, f.step, f.message);
      if f.detail != "" {
        EmitDetail(f);
      }
      if f.advice.hint != "" {
        Emit(f.time, Warn, f.source, f.step, f.advice.hint);
      }
    }

    method EmitDetail(f: Failure)
      requires LogValid()
      modifies entries, `next, `full, `emitted
      ensures LogValid() && emitted == old(emitted) + DetailLines(f, Split(TrimNewlines(f.detail)))
    {
      hide LogValid;
      var lines := Split(TrimNewlines(f.detail));
      for i := 0 to |lines|
        invariant LogValid()
        invariant emitted == old(emitted) + DetailLines(f, lines[..i])
      {
        Emit(f.time, Error, f.source, f.step, "    " + lines[i]);
        assert DetailLines(f, lines[..i + 1]) ==
               DetailLines(f, lines[..i]) + [LogEntry(f.time, Error, f.source, f.step, "    " + lines[i])];
      }
      assert lines[..|lines|] == lines;
    }

    /** The matching ones of the lines the ring still holds, the last ones if limited. */
    method Entries(q: Query) returns (out: seq<LogEntry>)
      requires LogValid()
      ensures out == Limited(Matching(LastOf(emitted, entries.Length), q), q.limit)
    {
      hide Selects, LastOf;
      KeepsMeans(entries[..], next, full, emitted, UNUSED);
      var all := if full then entries[next..] + entries[..next] else entries[..next];
      assert entries[..][next..] == entries[next..] && entries[..][..next] == entries[..next];
      assert all == LastOf(emitted, entries.Length);
      LastAreStamped(emitted, entries.Length);
      out := [];
      for i := 0 to |all|
        invariant out == Matching(all[..i], q)
      {
        assert all[..i + 1][..i] == all[..i];
        if all[i].time == "" {
          continue;
        }
        if Selects(q, all[i]) {
          out := out + [all[i]];
        }
      }
      assert all[..|all|] == all;
      if q.limit > 0 && |out| > q.limit {
        LastOfMeans(out, q.limit);
        out := out[|out| - q.limit..];
      } else if q.limit > 0 {
        LastOfMeans(out, q.limit);
      }
    }

    /** The journal: the last hundred runs of failures, the last ones of them if limited. */
    method Errors(limit: int) returns (out: seq<ErrorEntry>)
      requires JournalValid()
      ensures out == Limited(LastOf(Runs(filed), 100), limit)
    {
      hide LastOf, Runs;
      KeepsMeans(errors[..], errNext, errFull, Runs(filed), NO_ERROR);
      var all := if errFull then errors[errNext..] + errors[..errNext] else errors[..errNext];
      assert errors[..][errNext..] == errors[errNext..] && errors[..][..errNext] == errors[..errNext];
      assert all == LastOf(Runs(filed), JOURNAL);
      RunsAreNotBlank(filed);
      LastAreFiled(Runs(filed), JOURNAL);
      out := [];
      for i := 0 to |all|
        invariant out == all[..i]
      {
        if all[i].time != "" {
          out := out + [all[i]];
        }
      }
      assert out == all;
      if limit > 0 {
        LastOfMeans(out, limit);
        if |out| > limit {
          out := out[|out| - limit..];
        }
      }
    }

    method ClearLastError()
      requires Valid()
      modifies `lastError
      ensures Valid() && lastError == None
    {
      lastError := None;
    }

    /** Empties the journal, and says how many entries it had. */
    method ClearErrors() returns (cleared: nat)
      requires JournalValid()
      modifies errors, `errNext, `errFull, `lastError, `filed
      ensures JournalValid() && filed == [] && lastError == None
      ensures cleared == |LastOf(old(Runs(filed)), JOURNAL)|
    {
      hide Runs, Keeps, LastOf, InUse;
      ghost var before := errors[..];
      KeepsMeans(before, errNext, errFull, Runs(filed), NO_ERROR);
      RunsAreNotBlank(filed);
      UseIsWhatIsKept(before, errNext, errFull, Runs(filed), NO_ERROR);
      ErrorSlots(before, errNext, errFull, filed);
      cleared := 0;
      BlanksAreUnused(before[..0], NO_ERROR);
      for i := 0 to errors.Length
        invariant cleared == InUse(before[..i], NO_ERROR)
        invariant forall j :: 0 <= j < i ==> errors[j] == NO_ERROR
        invariant forall j :: i <= j < errors.Length ==> errors[j] == before[j]
      {
        OneMoreInUse(before, i, NO_ERROR);
        if errors[i].time != "" {
          cleared := cleared + 1;
        }
        errors[i] := NO_ERROR;
      }
      assert before[..|before|] == before;
      errNext, errFull, lastError, filed := 0, false, None, [];
      EmptyKeeps(errors[..], NO_ERROR);
      NothingFiled();
    }

    /** Empties both rings, and says how many lines the log had. */
    method Clear() returns (cleared: nat)
      requires Valid()
      modifies this, entries, errors
      ensures Valid() && emitted == [] && filed == [] && lastError == None
      ensures cleared == |LastOf(old(emitted), entries.Length)|
    {
      hide Keeps, LastOf, JournalValid, InUse;
      var dropped := ClearErrors();
      ghost var before := entries[..];
      KeepsMeans(before, next, full, emitted, UNUSED);
      UseIsWhatIsKept(before, next, full, emitted, UNUSED);
      EntrySlots(before, next, full, emitted);
      cleared := 0;
      assert InUse(before[..0], UNUSED) == 0 by {
        BlanksAreUnused(before[..0], UNUSED);
      }
      for i := 0 to entries.Length
        invariant JournalValid() && filed == [] && lastError == None
        invariant cleared == InUse(before[..i], UNUSED)
        invariant forall j :: 0 <= j < i ==> entries[j] == UNUSED
        invariant forall j :: i <= j < entries.Length ==> entries[j] == before[j]
      {
        OneMoreInUse(before, i, UNUSED);
        if entries[i].time != "" {
          cleared := cleared + 1;
        }
        entries[i] := UNUSED;
      }
      assert before[..|before|] == before;
      next, full, emitted := 0, false, [];
      EmptyKeeps(entries[..], UNUSED);
    }
  }

  function Banner(e: ErrorEntry): LastError {
    LastError(e.time, e.step, e.message, e.advice)
  }

  lemma OneMoreInUse<T>(slots: seq<T>, i: nat, blank: T)
    requires i < |slots|
    ensures InUse(slots[..i + 1], blank) == InUse(slots[..i], blank) + if slots[i] == blank then 0 else 1
  {
    assert slots[..i + 1][..i] == slots[..i];
  }

  lemma {:induction false} RunsAreNotBlank(failures: seq<Failure>)
    ensures forall i :: 0 <= i < |Runs(failures)| ==> Runs(failures)[i].time != "" && Runs(failures)[i] != NO_ERROR
    ensures Runs(failures) == [] <==> failures == []
  {
    if failures != [] {
      RunsAreNotBlank(failures[..|failures| - 1]);
    }
  }

  lemma ErrorSlots(slots: seq<ErrorEntry>, next: nat, full: bool, filed: seq<Failure>)
    requires Keeps(slots, next, full, Runs(filed), NO_ERROR)
    ensures forall i :: 0 <= i < |slots| ==> (slots[i].time == "" <==> slots[i] == NO_ERROR)
  {
    hide Keeps, Runs;
    RunsAreNotBlank(filed);
    forall i | 0 <= i < |slots| ensures slots[i].time == "" <==> slots[i] == NO_ERROR {
      SlotsMean(slots, next, full, Runs(filed), NO_ERROR, i);
    }
  }

  lemma EntrySlots(slots: seq<LogEntry>, next: nat, full: bool, emitted: seq<LogEntry>)
    requires Keeps(slots, next, full, emitted, UNUSED)
    requires forall i :: 0 <= i < |emitted| ==> emitted[i].time != ""
    ensures forall i :: 0 <= i < |slots| ==> (slots[i].time == "" <==> slots[i] == UNUSED)
  {
    hide Keeps;
    forall i | 0 <= i < |slots| ensures slots[i].time == "" <==> slots[i] == UNUSED {
      SlotsMean(slots, next, full, emitted, UNUSED, i);
    }
  }

  lemma LastAreStamped(all: seq<LogEntry>, n: nat)
    requires forall i :: 0 <= i < |all| ==> all[i].time != ""
    ensures forall i :: 0 <= i < |LastOf(all, n)| ==> LastOf(all, n)[i].time != ""
  {
  }

  lemma LastAreFiled(all: seq<ErrorEntry>, n: nat)
    requires forall i :: 0 <= i < |all| ==> all[i].time != ""
    ensures forall i :: 0 <= i < |LastOf(all, n)| ==> LastOf(all, n)[i].time != ""
  {
  }

  lemma LastOfMeans<T>(s: seq<T>, n: nat)
    ensures LastOf(s, n) == if |s| > n then s[|s| - n..] else s
  {
  }

  lemma NothingFiled()
    ensures Runs([]) == []
  {
  }
}
