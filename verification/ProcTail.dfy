/** The recent output of a supervised process (internal/proc/proc.go): its last thirty lines. */
module ProcTail {
  import opened Strings
  import opened Rings

  const TAIL_SIZE: nat := 30

  predicate Worth(line: string) {
    TrimSpace(line) != ""
  }

  function Recorded(lines: seq<string>): seq<string> {
    if lines == [] then []
    else
      var init := Recorded(lines[..|lines| - 1]);
      if Worth(lines[|lines| - 1]) then init + [lines[|lines| - 1]] else init
  }

  lemma {:induction false} RecordedAreNotEmpty(lines: seq<string>)
    ensures forall i :: 0 <= i < |Recorded(lines)| ==> Recorded(lines)[i] != ""
  {
    if lines != [] {
      RecordedAreNotEmpty(lines[..|lines| - 1]);
      assert TrimStart("") == "" && TrimEnd("") == "";
    }
  }

  lemma KeptAreNotEmpty(lines: seq<string>)
    ensures forall i :: 0 <= i < |LastOf(Recorded(lines), TAIL_SIZE)| ==> LastOf(Recorded(lines), TAIL_SIZE)[i] != ""
  {
    hide Recorded;
    RecordedAreNotEmpty(lines);
  }

  lemma LastOfMeans(s: seq<string>, n: int)
    ensures n > 0 ==> LastOf(s, n) == if |s| > n then s[|s| - n..] else s
  {
  }

  class Output {
    var tail: array?<string>
    var tailNext: nat
    var tailFull: bool
    ghost var lines: seq<string>

    ghost predicate Valid()
      reads this, tail
    {
      if tail == null then Recorded(lines) == [] && tailNext == 0 && !tailFull
      else tail.Length == TAIL_SIZE && Keeps(tail[..], tailNext, tailFull, Recorded(lines), "")
    }

    constructor ()
      ensures Valid() && lines == []
    {
      tail, tailNext, tailFull, lines := null, 0, false, [];
    }

    method RecordTail(line: string)
      requires Valid()
      modifies this, tail
      ensures Valid() && lines == old(lines) + [line]
      ensures tail == old(tail) || fresh(tail)
    {
      hide Keeps, Worth;
      assert (lines + [line])[..|lines|] == lines;
      ghost var all := Recorded(lines);
      lines := lines + [line];
      if !Worth(line) {
        return;
      }
      if tail == null {
        tail := new string[TAIL_SIZE](_ => "");
        EmptyKeeps(tail[..], "");
      }
      ghost var before := tail[..];
      KeepsMeans(before, tailNext, tailFull, all, "");
      Written(before, tailNext, tailFull, all, "", line);
      tail[tailNext] := line;
      assert tail[..] == before[tailNext := line];
      tailNext := Following(tailNext, TAIL_SIZE);
      if tailNext == 0 {
        tailFull := true;
      }
    }

    /** The last lines that were not white space, oldest first. */
    method RecentOutput(n: int) returns (out: seq<string>)
      requires Valid()
      ensures var kept := LastOf(Recorded(lines), 30);
              out == if n > 0 then LastOf(kept, n) else kept
    {
      hide Recorded;
      if tail == null {
        return [];
      }
      var all := if tailFull then tail[tailNext..] + tail[..tailNext] else tail[..tailNext];
      assert tail[..][tailNext..] == tail[tailNext..] && tail[..][..tailNext] == tail[..tailNext];
      assert all == LastOf(Recorded(lines), TAIL_SIZE);
      KeptAreNotEmpty(lines);
      hide Keeps, LastOf;
      out := [];
      for i := 0 to |all|
        invariant out == all[..i]
      {
        if all[i] != "" {
          out := out + [all[i]];
        }
      }
      assert all[..|all|] == all;
      if n > 0 && |out| > n {
        out := out[|out| - n..];
      }
      LastOfMeans(all, n);
    }
  }
}
