// The sub-index field of a signal definition: a list of match indexes, each
// with '$' in front if the value is a string.  The field is parsed in two
// passes over the line buffer; the first erases the separators in place.
module SubIndex {
  import opened Decimal

  const NUL := 0 as char
  const MAX_LINE := 1024
  const MAX_SIGS := 1000

  datatype Entry = Entry(isStr: bool, index: nat)

  predicate Kept(c: char) {
    Digit(c) || c == '$'
  }

  // Where the run of kept characters ends.
  function RunEnd(s: string, i: nat): (e: nat)
    requires i <= |s|
    ensures i <= e <= |s|
    ensures i < |s| && Kept(s[i]) ==> i < e
    decreases |s| - i
  {
    if i == |s| || !Kept(s[i]) then i else RunEnd(s, i + 1)
  }

  function EntryAt(s: string, i: nat): Entry
    requires i < |s|
  {
    if s[i] == '$' then Entry(true, Atoi(s, i + 1, 0)) else Entry(false, Atoi(s, i, 0))
  }

  // The entries of the field from position i on, one for each run.
  function Entries(s: string, i: nat): seq<Entry>
    requires i <= |s|
    decreases |s| - i
  {
    if i == |s| then []
    else if !Kept(s[i]) then Entries(s, i + 1)
    else [EntryAt(s, i)] + Entries(s, RunEnd(s, i))
  }

  function Pending(s: string, i: nat, instr: bool): seq<Entry>
    requires i <= |s|
  {
    Entries(s, if instr then RunEnd(s, i) else i)
  }

  lemma PendingNext(s: string, i: nat, instr: bool)
    requires i < |s|
    ensures Pending(s, i, instr)
         == (if Kept(s[i]) && !instr then [EntryAt(s, i)] else []) + Pending(s, i + 1, Kept(s[i]))
  {
  }

  function Erased(s: string): (r: string)
    ensures |r| == |s| && forall k :: 0 <= k < |s| ==> r[k] == if Kept(s[k]) then s[k] else NUL
  {
    seq(|s|, k requires 0 <= k < |s| => if Kept(s[k]) then s[k] else NUL)
  }

  // The entries of a field; an empty field and a single '$' stand for one
  // sub-signal that is the whole match.
  function ParseField(s: string): seq<Entry> {
    if s == "" || s == "$" then [Entry(s == "$", 0)] else Entries(Erased(s), 0)
  }

  // ---------------------------------------------------------------- the two passes

  // Erases what is not kept and counts the runs.
  method CountAndErase(line: array<char>, off: nat, len: nat) returns (nidx: nat)
    requires off + len <= line.Length
    modifies line
    ensures line[off..off + len] == Erased(old(line[off..off + len]))
    ensures forall k :: 0 <= k < line.Length && !(off <= k < off + len) ==> line[k] == old(line[k])
    ensures nidx == |Entries(line[off..off + len], 0)|
  {
    ghost var was := line[off..off + len];
    ghost var s := Erased(was);
    var i, instr := 0, false;
    nidx := 0;
    while i < len
      invariant i <= len
      invariant nidx + |Pending(s, i, instr)| == |Entries(s, 0)|
      invariant forall k :: 0 <= k < i ==> line[off + k] == s[k]
      invariant forall k :: i <= k < len ==> line[off + k] == was[k]
      invariant forall k :: 0 <= k < line.Length && !(off <= k < off + len) ==> line[k] == old(line[k])
    {
      assert line[off + i] == was[i];
      PendingNext(s, i, instr);
      if Kept(line[off + i]) {
        if !instr {
          instr := true;
          nidx := nidx + 1;
        }
      } else {
        line[off + i] := NUL;
        instr := false;
      }
      i := i + 1;
    }
    assert line[off..off + len] == s;
  }

  // C's atoi at a place in the line buffer.
  method AtoiAt(line: array<char>, at: nat, end: nat, ghost s: string, ghost i: nat) returns (n: nat)
    requires at <= end <= line.Length && i <= |s| && end - at == |s| - i
    requires line[at..end] == s[i..]
    ensures n == Atoi(s, i, 0)
  {
    n := 0;
    var k := 0;
    while at + k < end && Digit(line[at + k])
      invariant k <= end - at
      invariant Atoi(s, i + k, n) == Atoi(s, i, 0)
    {
      assert line[at..end][k] == s[i..][k];
      n := 10 * n + Value(line[at + k]);
      k := k + 1;
    }
    assert k < end - at ==> line[at..end][k] == s[i..][k];
  }

  // The first j slots hold the first j entries.
  predicate Filled(idxs: seq<int>, issA: seq<char>, entries: seq<Entry>, j: nat) {
    && j <= |entries| <= |idxs| && |entries| <= |issA|
    && forall k :: 0 <= k < j ==> idxs[k] == entries[k].index && issA[k] == if entries[k].isStr then 'Y' else 'N'
  }

  // Fills slot j from the run that begins at place i of the field.
  method StoreEntry(line: array<char>, off: nat, len: nat, i: nat, idxs: array<int>, issA: array<char>, j: nat)
    requires off + len <= line.Length && i < len && j < idxs.Length && j < issA.Length
    requires line != issA
    modifies idxs, issA
    ensures var e := EntryAt(line[off..off + len], i);
            && idxs[..] == old(idxs[..])[j := e.index]
            && issA[..] == old(issA[..])[j := if e.isStr then 'Y' else 'N']
  {
    ghost var s := line[off..off + len];
    assert line[off + i..off + len] == s[i..] && line[off + i + 1..off + len] == s[i + 1..];
    if line[off + i] == '$' {
      issA[j] := 'Y';
      idxs[j] := AtoiAt(line, off + i + 1, off + len, s, i + 1);
    } else {
      issA[j] := 'N';
      idxs[j] := AtoiAt(line, off + i, off + len, s, i);
    }
  }

  // Fills the slots counted before from the erased field.
  method Store(line: array<char>, off: nat, len: nat, idxs: array<int>, issA: array<char>)
    requires off + len <= line.Length
    requires idxs.Length == |Entries(line[off..off + len], 0)| && issA.Length == idxs.Length + 1
    requires line != issA
    modifies idxs, issA
    ensures Filled(idxs[..], issA[..], Entries(line[off..off + len], 0), idxs.Length)
  {
    ghost var s := line[off..off + len];
    ghost var entries := Entries(s, 0);
    var i, j, instr := 0, 0, false;
    while i < len
      invariant i <= len && j <= |entries|
      invariant entries[j..] == Pending(s, i, instr)
      invariant Filled(idxs[..], issA[..], entries, j)
    {
      PendingNext(s, i, instr);
      if Kept(line[off + i]) {
        if !instr {
          instr := true;
          assert entries[j..][0] == EntryAt(s, i) && entries[j..][1..] == entries[j + 1..];
          StoreEntry(line, off, len, i, idxs, issA, j);
          j := j + 1;
        }
      } else {
        instr := false;
      }
      i := i + 1;
    }
  }

  // The sub-signals of a definition line: as many slots as entries, all filled.
  method ParseSubIndexes(line: array<char>, off: nat, len: nat) returns (idxs: array<int>, issA: array<char>)
    requires off + len <= line.Length
    modifies line
    ensures var entries := ParseField(old(line[off..off + len]));
            && idxs.Length == |entries| && issA.Length == |entries| + 1
            && Filled(idxs[..], issA[..], entries, |entries|)
    ensures len == 0 ==> idxs[..] == [0] && issA[0] == 'N'
    ensures len == 1 && old(line[off]) == '$' ==> idxs[..] == [0] && issA[0] == 'Y'
    ensures forall k :: 0 <= k < line.Length && !(off <= k < off + len) ==> line[k] == old(line[k])
  {
    if len == 0 || (len == 1 && line[off] == '$') {
      idxs, issA := new int[1], new char[2];
      idxs[0], issA[0], issA[1] := 0, if len == 1 then 'Y' else 'N', '0';
      return;
    }
    var nidx := CountAndErase(line, off, len);
    idxs, issA := new int[nidx], new char[nidx + 1];
    Store(line, off, len, idxs, issA);
  }

  // ---------------------------------------------------------------- printed lists

  function ShowEntry(e: Entry): (t: string)
    ensures t != ""
  {
    (if e.isStr then "$" else "") + Dec(e.index)
  }

  function PrintList(es: seq<Entry>, sep: string): string {
    if es == [] then ""
    else if |es| == 1 then ShowEntry(es[0])
    else ShowEntry(es[0]) + sep + PrintList(es[1..], sep)
  }

  predicate Separator(sep: string) {
    sep != "" && forall k :: 0 <= k < |sep| ==> !Kept(sep[k])
  }

  lemma {:induction false} SkipErased(s: string, i: nat, j: nat)
    requires i <= j <= |s| && forall k :: i <= k < j ==> !Kept(s[k])
    ensures Entries(s, i) == Entries(s, j)
    decreases j - i
  {
    if i < j {
      SkipErased(s, i + 1, j);
    }
  }

  lemma {:induction false} RunEndIs(s: string, i: nat, e: nat)
    requires i <= e <= |s| && (forall k :: i <= k < e ==> Kept(s[k])) && (e < |s| ==> !Kept(s[e]))
    ensures RunEnd(s, i) == e
    decreases e - i
  {
    if i < e {
      RunEndIs(s, i + 1, e);
    }
  }

  // From position p on, s is t.
  predicate Holds(s: string, p: nat, t: string) {
    p + |t| <= |s| && forall k {:trigger t[k]} :: 0 <= k < |t| ==> s[p + k] == t[k]
  }

  lemma EntryValueReads(s: string, p: nat, e: Entry)
    requires Holds(s, p, ShowEntry(e)) && (p + |ShowEntry(e)| < |s| ==> !Kept(s[p + |ShowEntry(e)|]))
    ensures EntryAt(s, p) == e
  {
    var t, d := ShowEntry(e), Dec(e.index);
    var at := p + |t| - |d|;
    assert forall k {:trigger d[k]} :: 0 <= k < |d| ==> t[|t| - |d| + k] == d[k];
    AtoiReads(s, at, e.index);
    assert Digit(d[0]) && s[at] == d[0];
    assert s[p] == t[0];
  }

  lemma EntryReads(s: string, p: nat, e: Entry)
    requires Holds(s, p, ShowEntry(e)) && (p + |ShowEntry(e)| < |s| ==> !Kept(s[p + |ShowEntry(e)|]))
    ensures EntryAt(s, p) == e && Kept(s[p]) && RunEnd(s, p) == p + |ShowEntry(e)|
  {
    var t := ShowEntry(e);
    EntryValueReads(s, p, e);
    ShowKept(e);
    forall k | p <= k < p + |t|
      ensures Kept(s[k])
    {
      assert s[p + (k - p)] == t[k - p];
    }
    RunEndIs(s, p, p + |t|);
  }

  lemma ErasedFront(s: string, p: nat, first: string, tail: string)
    requires Holds(s, p, Erased(first + tail)) && forall k :: 0 <= k < |first| ==> Kept(first[k])
    ensures Holds(s, p, first) && Holds(s, p + |first|, Erased(tail))
  {
    var erased := Erased(first + tail);
    assert forall k {:trigger first[k]} :: 0 <= k < |first| ==> erased[k] == first[k];
    var rest := Erased(tail);
    forall k {:trigger rest[k]} | 0 <= k < |rest|
      ensures s[p + |first| + k] == rest[k]
    {
      assert (first + tail)[|first| + k] == tail[k];
      assert s[p + (|first| + k)] == erased[|first| + k];
    }
  }

  lemma ErasedSeparator(s: string, q: nat, sep: string, rest: string)
    requires Holds(s, q, Erased(sep + rest)) && Separator(sep)
    ensures Entries(s, q) == Entries(s, q + |sep|) && Holds(s, q + |sep|, Erased(rest)) && !Kept(s[q])
  {
    var erased := Erased(sep + rest);
    forall k | q <= k < q + |sep|
      ensures !Kept(s[k])
    {
      assert (sep + rest)[k - q] == sep[k - q];
      assert s[q + (k - q)] == erased[k - q];
    }
    SkipErased(s, q, q + |sep|);
    var e := Erased(rest);
    forall k {:trigger e[k]} | 0 <= k < |e|
      ensures s[q + |sep| + k] == e[k]
    {
      assert (sep + rest)[|sep| + k] == rest[k];
      assert s[q + (|sep| + k)] == erased[|sep| + k];
    }
  }

  lemma FirstReads(s: string, p: nat, e: Entry, sep: string, rest: string)
    requires Holds(s, p, Erased(ShowEntry(e) + (sep + rest))) && Separator(sep)
    ensures var q := p + |ShowEntry(e)| + |sep|;
            Holds(s, q, Erased(rest)) && Entries(s, p) == [e] + Entries(s, q)
  {
    var q := p + |ShowEntry(e)|;
    assert Holds(s, p, ShowEntry(e)) && Holds(s, q, Erased(sep + rest)) by {
      ShowKept(e);
      ErasedFront(s, p, ShowEntry(e), sep + rest);
    }
    assert !Kept(s[q]) by {
      ErasedSeparator(s, q, sep, rest);
    }
    assert Entries(s, p) == [e] + Entries(s, q) by {
      EntryReads(s, p, e);
    }
    ErasedSeparator(s, q, sep, rest);
  }

  lemma LastReads(s: string, p: nat, e: Entry)
    requires Holds(s, p, Erased(ShowEntry(e))) && p + |ShowEntry(e)| == |s|
    ensures Entries(s, p) == [e]
  {
    ShowKept(e);
    assert ShowEntry(e) + "" == ShowEntry(e);
    ErasedFront(s, p, ShowEntry(e), "");
    EntryReads(s, p, e);
  }

  // The erased text of a printed list reads as the list.
  lemma {:induction false} ListReads(s: string, p: nat, es: seq<Entry>, sep: string)
    requires es != [] && Separator(sep) && p + |PrintList(es, sep)| == |s|
    requires Holds(s, p, Erased(PrintList(es, sep)))
    ensures Entries(s, p) == es
    decreases |es|
  {
    if |es| == 1 {
      LastReads(s, p, es[0]);
    } else {
      var rest := PrintList(es[1..], sep);
      assert PrintList(es, sep) == ShowEntry(es[0]) + (sep + rest);
      FirstReads(s, p, es[0], sep, rest);
      ListReads(s, p + |ShowEntry(es[0])| + |sep|, es[1..], sep);
      assert [es[0]] + es[1..] == es;
    }
  }

  lemma ShowKept(e: Entry)
    ensures forall k :: 0 <= k < |ShowEntry(e)| ==> Kept(ShowEntry(e)[k])
  {
  }

  // Whatever separator a list is printed with, the two passes recover it.
  lemma ParsePrinted(es: seq<Entry>, sep: string)
    requires es != [] && Separator(sep)
    ensures ParseField(PrintList(es, sep)) == es
  {
    var text := PrintList(es, sep);
    var first := ShowEntry(es[0]);
    ListReads(Erased(text), 0, es, sep);
    assert text[..|first|] == first;
    assert first[|first| - 1] == Dec(es[0].index)[|Dec(es[0].index)| - 1];
  }

  // A field has no sub-signal at all exactly when it is not empty but holds
  // only separators.
  lemma NoSubSignals(s: string)
    ensures ParseField(s) == []
       <==> s != "" && forall k :: 0 <= k < |s| ==> !('0' <= s[k] <= '9') && s[k] != '$'
  {
    var e := Erased(s);
    if forall k :: 0 <= k < |s| ==> !Kept(s[k]) {
      SkipErased(e, 0, |e|);
    } else if s != "$" {
      var k :| 0 <= k < |s| && Kept(s[k]);
      SomeEntry(e, 0, k);
    }
  }

  lemma {:induction false} SomeEntry(s: string, i: nat, k: nat)
    requires i <= k < |s| && Kept(s[k])
    ensures Entries(s, i) != []
    decreases k - i
  {
    if i < k && !Kept(s[i]) {
      SomeEntry(s, i + 1, k);
    }
  }

  // ---------------------------------------------------------------- sub-signal numbers

  lemma {:induction false} EntriesBounded(s: string, i: nat)
    requires i <= |s|
    ensures 2 * |Entries(s, i)| <= |s| - i + 1
    decreases |s| - i
  {
    if i < |s| {
      if !Kept(s[i]) {
        EntriesBounded(s, i + 1);
      } else {
        var e := RunEnd(s, i);
        if e < |s| {
          RunStops(s, i);
          EntriesBounded(s, e + 1);
        }
      }
    }
  }

  lemma {:induction false} RunStops(s: string, i: nat)
    requires i <= |s|
    ensures RunEnd(s, i) < |s| ==> !Kept(s[RunEnd(s, i)])
    decreases |s| - i
  {
    if i < |s| && Kept(s[i]) {
      RunStops(s, i + 1);
    }
  }

  function Id(line: nat, sub: nat): nat {
    MAX_SIGS * (line + 1) + sub
  }

  // A definition line is too short for the numbers of two lines to meet.
  lemma IdsDiffer(line: nat, field: string, sub: nat, line': nat, field': string, sub': nat)
    requires |field| < MAX_LINE && |field'| < MAX_LINE
    requires sub < |ParseField(field)| && sub' < |ParseField(field')|
    ensures Id(line, sub) == Id(line', sub') <==> line == line' && sub == sub'
  {
    EntriesBounded(Erased(field), 0);
    EntriesBounded(Erased(field'), 0);
    assert sub < MAX_SIGS && sub' < MAX_SIGS;
  }
}
