/**
 Which spelling of the timeout settings the installed tunnel understands
 (internal/mode/hevidle.go): a search of its binary, chunk by chunk.
 */
module HevKeys {

  datatype KeyForm = SplitKeys | SingleKey

  const CHUNK: nat := 65536
  const OVERLAP: nat := 64
  const SPLIT := "tcp-read-write-timeout"
  const SINGLE := "read-write-timeout"

  predicate At(s: string, p: string, i: int) {
    0 <= i <= |s| - |p| && s[i..i + |p|] == p
  }

  predicate Contains(s: string, p: string) {
    exists i :: 0 <= i <= |s| && At(s, p, i)
  }

  /** The answer of a search of the whole stream. */
  function FormOf(stream: string): KeyForm {
    if !Contains(stream, SPLIT) && Contains(stream, SINGLE) then SingleKey else SplitKeys
  }

  /** A stream that is handed out in pieces of any size that fits; an error ends it. */
  class Reader {
    var rest: string

    constructor (stream: string)
      ensures rest == stream
    {
      rest := stream;
    }

    method Read(room: nat) returns (data: string, err: bool)
      requires room > 0
      modifies this
      ensures old(rest) == data + rest && |data| <= room
      ensures err ==> rest == ""
      ensures !err ==> data != ""
    {
      var n: int := *;
      if n < 1 || n > room || n > |rest| {
        n := if room < |rest| then room else |rest|;
      }
      data, rest := rest[..n], rest[n..];
      err := *;
      err := rest == "" && (err || data == "");
    }
  }

  function Tail(s: string, n: nat): string {
    if |s| <= n then s else s[|s| - n..]
  }

  lemma Occurs(s: string, p: string, i: int)
    requires At(s, p, i)
    ensures Contains(s, p)
  {
  }

  lemma StillThere(s: string, p: string, more: string)
    requires Contains(s, p)
    ensures Contains(s + more, p)
  {
    var i :| 0 <= i <= |s| && At(s, p, i);
    assert (s + more)[i..i + |p|] == s[i..i + |p|];
    Occurs(s + more, p, i);
  }

  lemma ThereInWhole(head: string, s: string, p: string)
    requires Contains(s, p)
    ensures Contains(head + s, p)
  {
    var i :| 0 <= i <= |s| && At(s, p, i);
    assert (head + s)[|head| + i..|head| + i + |p|] == s[i..i + |p|];
    Occurs(head + s, p, |head| + i);
  }

  /** An occurrence ends before the boundary, or begins in what is kept. */
  lemma Crosses(before: string, data: string, p: string, kept: nat, i: int)
    requires 0 < |p| <= kept + 1 && At(before + data, p, i)
    ensures var cut := |before| - |Tail(before, kept)|;
            if i + |p| <= |before| then At(before, p, i) else At(Tail(before, kept) + data, p, i - cut)
  {
    var all, window := before + data, Tail(before, kept) + data;
    var cut := |before| - |Tail(before, kept)|;
    if i + |p| <= |before| {
      assert before[i..i + |p|] == all[i..i + |p|];
    } else {
      assert all == before[..cut] + window;
      assert window[i - cut..i - cut + |p|] == all[i..i + |p|];
    }
  }

  /** Keeping as much of what was read as the longest name has letters, less one, is enough to
      find every name that begins before a boundary and ends behind it. */
  lemma BoundaryMatchIsSeen(before: string, data: string, p: string, kept: nat)
    requires 0 < |p| <= kept + 1
    ensures Contains(before + data, p) <==> Contains(before, p) || Contains(Tail(before, kept) + data, p)
  {
    var all, window := before + data, Tail(before, kept) + data;
    var cut := |before| - |Tail(before, kept)|;
    if Contains(before, p) {
      StillThere(before, p, data);
    }
    if Contains(window, p) {
      ThereInWhole(before[..cut], window, p);
      assert all == before[..cut] + window;
    }
    if Contains(all, p) {
      var i :| 0 <= i <= |all| && At(all, p, i);
      hide At;
      Crosses(before, data, p, kept, i);
      if i + |p| <= |before| {
        Occurs(before, p, i);
      } else {
        Occurs(window, p, i - cut);
      }
    }
  }

  /** Puts what was read behind what is held. */
  method Fill(buf: array<char>, held: nat, data: string)
    requires held + |data| <= buf.Length
    modifies buf
    ensures buf[..held + |data|] == old(buf[..held]) + data
  {
    for i := 0 to |data|
      invariant buf[..held] == old(buf[..held])
      invariant buf[held..held + i] == data[..i]
    {
      buf[held + i] := data[i];
    }
  }

  /** Moves the end of the window to the front of the buffer. */
  method Hold(buf: array<char>, size: nat) returns (held: nat)
    requires size <= buf.Length
    modifies buf
    ensures held <= buf.Length && buf[..held] == Tail(old(buf[..size]), OVERLAP)
  {
    ghost var window := buf[..size];
    if size <= OVERLAP {
      return size;
    }
    var from := size - OVERLAP;
    for i := 0 to OVERLAP
      invariant buf[..i] == window[from..from + i]
      invariant forall k :: from + i <= k < size ==> buf[k] == window[k]
    {
      buf[i] := buf[from + i];
    }
    held := OVERLAP;
  }

  /** Searches a stream however it is split into pieces: the answer is that of the whole. */
  method HevKeysIn(r: Reader) returns (form: KeyForm)
    modifies r
    ensures form ==
            if !Contains(old(r.rest), "tcp-read-write-timeout") && Contains(old(r.rest), "read-write-timeout")
            then SingleKey else SplitKeys
  {
    hide Contains, FormOf, Tail, At;
    var buf := new char[CHUNK + OVERLAP];
    var held: nat := 0;
    var sawSingle := false;
    ghost var stream := r.rest;
    ghost var before := "";
    NothingFound();
    FormMeans(stream);
    var err := false;
    while !err
      invariant fresh(buf) && buf.Length == CHUNK + OVERLAP
      invariant stream == before + r.rest && (err ==> r.rest == "")
      invariant held <= OVERLAP && buf[..held] == Tail(before, OVERLAP)
      invariant !Contains(before, SPLIT) && (sawSingle <==> Contains(before, SINGLE))
      decreases |r.rest|, !err
    {
      var data;
      data, err := r.Read(buf.Length - held);
      if data != "" {
        ghost var after := before + data;
        BoundaryMatchIsSeen(before, data, SPLIT, OVERLAP);
        BoundaryMatchIsSeen(before, data, SINGLE, OVERLAP);
        Fill(buf, held, data);
        var window := buf[..held + |data|];
        if Contains(window, SPLIT) {
          SplitFound(after, r.rest);
          assert stream == after + r.rest;
          return SplitKeys;
        }
        if Contains(window, SINGLE) {
          sawSingle := true;
        }
        held := Hold(buf, |window|);
        TailOfTail(before, data);
        before := after;
      }
    }
    assert before + "" == before;
    form := if sawSingle then SingleKey else SplitKeys;
  }

  lemma NothingFound()
    ensures !Contains("", SPLIT) && !Contains("", SINGLE) && Tail("", OVERLAP) == ""
  {
  }

  lemma SplitFound(s: string, more: string)
    requires Contains(s, SPLIT)
    ensures FormOf(s + more) == SplitKeys
  {
    StillThere(s, SPLIT, more);
  }

  lemma FormMeans(stream: string)
    ensures FormOf(stream) ==
            if !Contains(stream, "tcp-read-write-timeout") && Contains(stream, "read-write-timeout") then SingleKey
            else SplitKeys
  {
  }

  lemma TailOfTail(before: string, data: string)
    ensures Tail(Tail(before, OVERLAP) + data, OVERLAP) == Tail(before + data, OVERLAP)
    ensures |Tail(before + data, OVERLAP)| <= OVERLAP
  {
  }

  lemma SplitEndsInSingle()
    ensures |SPLIT| == 22 && |SINGLE| == 18 && SPLIT[4..] == SINGLE
  {
  }

  /** The split spelling contains the single one, so it has to be looked for first. */
  lemma SplitContainsSingle(stream: string)
    requires Contains(stream, SPLIT)
    ensures Contains(stream, SINGLE)
  {
    var i :| 0 <= i <= |stream| && At(stream, SPLIT, i);
    SplitEndsInSingle();
    assert stream[i..i + |SPLIT|][4..] == stream[i + 4..i + |SPLIT|];
    Occurs(stream, SINGLE, i + 4);
  }
}
