// The two field cutters: parsers that split a line at a delimiter character
// and store where each field starts and ends, from the left or from the right.
module FieldCutters {

  datatype Match = Match(so: int, eo: int)

  // Overrun stands for a write past the end of the array.
  datatype Code = Found | NoMatch | Overrun

  predicate Eol(c: char) {
    c == '\r' || c == '\n'
  }

  // ---------------------------------------------------------------- fields from the left

  // The first position at or after i where the field ends.
  function EndOf(s: string, d: char, i: nat): (e: nat)
    requires i <= |s|
    ensures i <= e <= |s|
    ensures forall k :: i <= k < e ==> s[k] != d
    ensures e < |s| ==> s[e] == d
    decreases |s| - i
  {
    if i == |s| || s[i] == d then i else EndOf(s, d, i + 1)
  }

  // The fields of s from position i on, left to right.
  function Fields(s: string, d: char, i: nat): seq<Match>
    requires i <= |s|
    decreases |s| - i
  {
    if i == |s| then []
    else if s[i] == d then Fields(s, d, i + 1)
    else
      var e := EndOf(s, d, i);
      [Match(i, e)] + Fields(s, d, e)
  }

  // A field is a maximal stretch without delimiter.
  predicate IsField(s: string, d: char, f: Match) {
    && 0 <= f.so < f.eo <= |s|
    && (forall k :: f.so <= k < f.eo ==> s[k] != d)
    && (f.so == 0 || s[f.so - 1] == d)
    && (f.eo == |s| || s[f.eo] == d)
  }

  // No field is cut at i.
  predicate CutPoint(s: string, d: char, i: nat)
    requires i <= |s|
  {
    i == 0 || i == |s| || s[i - 1] == d || s[i] == d
  }

  lemma {:induction false} EndOfIs(s: string, d: char, i: nat, e: nat)
    requires i <= e <= |s| && forall k :: i <= k < e ==> s[k] != d
    requires e < |s| ==> s[e] == d
    ensures EndOf(s, d, i) == e
    decreases e - i
  {
  }

  lemma {:induction false} FieldsAreAll(s: string, d: char, i: nat, f: Match)
    requires i <= |s| && CutPoint(s, d, i)
    ensures f in Fields(s, d, i) <==> IsField(s, d, f) && i <= f.so
    decreases |s| - i
  {
    if i < |s| {
      if s[i] == d {
        FieldsAreAll(s, d, i + 1, f);
      } else {
        var e := EndOf(s, d, i);
        FieldsAreAll(s, d, e, f);
        if IsField(s, d, f) && i <= f.so < e {
          assert f.so == i;
          EndOfIs(s, d, i, f.eo);
        }
      }
    }
  }

  lemma {:induction false} FieldsInOrder(s: string, d: char, i: nat, j: nat, k: nat)
    requires i <= |s| && j < k < |Fields(s, d, i)|
    ensures i <= Fields(s, d, i)[j].so && Fields(s, d, i)[j].eo < Fields(s, d, i)[k].so
    decreases |s| - i
  {
    if s[i] == d {
      FieldsInOrder(s, d, i + 1, j, k);
    } else {
      var e := EndOf(s, d, i);
      FieldBounds(s, d, e, k - 1);
      if j > 0 {
        FieldsInOrder(s, d, e, j - 1, k - 1);
      }
    }
  }

  lemma {:induction false} FieldBounds(s: string, d: char, i: nat, k: nat)
    requires i <= |s| && k < |Fields(s, d, i)|
    ensures i <= Fields(s, d, i)[k].so < Fields(s, d, i)[k].eo <= |s|
    ensures i < |s| && s[i] == d ==> i < Fields(s, d, i)[k].so
    decreases |s| - i
  {
    if s[i] == d {
      FieldBounds(s, d, i + 1, k);
    } else if k > 0 {
      FieldBounds(s, d, EndOf(s, d, i), k - 1);
    }
  }

  // ---------------------------------------------------------------- cutting from the left

  // A line ends with its first line-end character, which is still part of it.
  function Cut(s: string): (n: nat)
    ensures n <= |s|
    ensures forall k :: 0 <= k < n - 1 ==> !Eol(s[k])
    ensures n < |s| ==> n > 0 && Eol(s[n - 1])
  {
    if s == "" then 0 else if Eol(s[0]) then 1 else 1 + Cut(s[1..])
  }

  lemma CutIs(s: string)
    ensures forall k :: 0 <= k < Cut(s) - 1 ==> s[k] != '\r' && s[k] != '\n'
    ensures Cut(s) < |s| ==> Cut(s) > 0 && s[Cut(s) - 1] in {'\r', '\n'}
  {
  }

  // The fields still to be stored at position i.
  function Pending(s: string, d: char, i: nat, instring: bool, start: int): seq<Match>
    requires i <= |s|
  {
    if instring then
      var e := EndOf(s, d, i);
      [Match(start, e)] + Fields(s, d, e)
    else Fields(s, d, i)
  }

  lemma PendingStep(s: string, d: char, i: nat, instring: bool, start: int)
    requires i < |s|
    ensures if s[i] != d then
              Pending(s, d, i, instring, start) == Pending(s, d, i + 1, true, if instring then start else i)
            else
              Pending(s, d, i, instring, start)
              == (if instring then [Match(start, i)] else []) + Pending(s, d, i + 1, false, start)
  {
  }

  // The entries before g hold the first fields.
  predicate Stored(pmatch: array<Match>, g: nat, fields: seq<Match>)
    reads pmatch
  {
    1 <= g <= |fields| + 1 && forall j :: 1 <= j < g && j < pmatch.Length ==> pmatch[j] == fields[j - 1]
  }

  // The loop of the cutter: g - 1 fields have been stored, all of them if there
  // was room.
  method CutFields(d: char, s: string, pmatch: array<Match>) returns (g: nat)
    modifies pmatch
    ensures var fields := Fields(s[..Cut(s)], d, 0);
            && Stored(pmatch, g, fields)
            && (if |fields| + 1 < pmatch.Length then g == |fields| + 1 else g >= pmatch.Length)
    ensures forall j :: g <= j < pmatch.Length || j == 0 < pmatch.Length ==> pmatch[j] == old(pmatch[j])
  {
    ghost var t := s[..Cut(s)];
    ghost var fields, start: int := Fields(t, d, 0), 0;
    var nmatch := pmatch.Length;
    var i, instring, finish := 0, false, false;
    g := 1;
    while i < |s| && g < nmatch && !finish
      invariant i <= |t| && (g <= nmatch || g == 1)
      invariant finish <==> i > 0 && Eol(s[i - 1])
      invariant Stored(pmatch, g, fields)
      invariant fields[g - 1..] == Pending(t, d, i, instring, start)
      invariant instring ==> g < nmatch && pmatch[g].so == start
      invariant forall j :: (if instring then g + 1 else g) <= j < nmatch || j == 0 < nmatch ==> pmatch[j] == old(pmatch[j])
      decreases |s| - i
    {
      PendingStep(t, d, i, instring, start);
      finish := Eol(s[i]);
      if !instring {
        if s[i] != d {
          instring := true;
          pmatch[g] := pmatch[g].(so := i);
          start := i;
        }
      } else if s[i] == d {
        instring := false;
        pmatch[g] := pmatch[g].(eo := i);
        g := g + 1;
      }
      i := i + 1;
    }
    if instring {
      pmatch[g] := pmatch[g].(eo := i);
      g := g + 1;
    }
  }

  // All fields are found, and where the line's first starts and last ends, if
  // there is room for them and one entry more; other entries are as they were.
  predicate CutDone(d: char, s: string, was: seq<Match>, now: seq<Match>, rc: Code) {
    var fields := Fields(s[..Cut(s)], d, 0);
    && |was| == |now|
    && rc == (if |fields| + 1 < |now| then Found else NoMatch)
    && (forall j :: 1 <= j <= |fields| && j < |now| ==> now[j] == fields[j - 1])
    && (rc == Found && fields != [] ==> now[0] == Match(fields[0].so, fields[|fields| - 1].eo))
    && (forall j :: |fields| < j < |now| ==> now[j] == was[j])
  }

  method CutExec(d: char, s: string, pmatch: array<Match>) returns (rc: Code)
    modifies pmatch
    ensures CutDone(d, s, old(pmatch[..]), pmatch[..], rc)
  {
    var g := CutFields(d, s, pmatch);
    if g >= pmatch.Length {
      return NoMatch;
    }
    pmatch[0] := Match(pmatch[1].so, pmatch[g - 1].eo);
    rc := Found;
  }

  // ---------------------------------------------------------------- fields from the right

  // From the right, line-end characters neither start nor end a field.
  predicate Delimits(c: char, d: char) {
    c == d && !Eol(c)
  }

  // Where the field that goes on to n begins.
  function BeginOf(s: string, d: char, n: nat): (b: nat)
    requires n <= |s|
    ensures b <= n
    ensures forall k :: b <= k < n ==> !Delimits(s[k], d)
    ensures b > 0 ==> Delimits(s[b - 1], d)
  {
    if n == 0 || Delimits(s[n - 1], d) then n else BeginOf(s, d, n - 1)
  }

  // The fields before position n, right to left.
  function BackFields(s: string, d: char, n: nat): seq<Match>
    requires n <= |s|
  {
    if n == 0 then []
    else if Eol(s[n - 1]) || s[n - 1] == d then BackFields(s, d, n - 1)
    else
      var b := BeginOf(s, d, n);
      [Match(b, n)] + BackFields(s, d, b)
  }

  function PendingBack(s: string, d: char, n: nat, instring: bool, end: int): seq<Match>
    requires n <= |s|
  {
    if instring then
      var b := BeginOf(s, d, n);
      [Match(b, end)] + BackFields(s, d, b)
    else BackFields(s, d, n)
  }

  // What a character does to the fields still to be stored.
  lemma BackTurn(s: string, d: char, n: nat, instring: bool, end: int, rest: seq<Match>)
    requires 0 < n <= |s| && rest == PendingBack(s, d, n, instring, end)
    ensures var c := s[n - 1];
            var closes := instring && Delimits(c, d);
            && (closes ==> rest != [] && rest[0] == Match(n, end))
            && (if closes then rest[1..] else rest)
               == PendingBack(s, d, n - 1, if Eol(c) then instring else c != d, if instring then end else n)
  {
  }

  // The leftmost field is open if no delimiter is before it.
  predicate Open(fields: seq<Match>) {
    fields != [] && fields[|fields| - 1].so == 0
  }

  function Closed(fields: seq<Match>): nat {
    if Open(fields) then |fields| - 1 else |fields|
  }

  // Only the last field from the right can start at 0.
  lemma {:induction false} OnlyLastOpen(s: string, d: char, n: nat, k: nat)
    requires n <= |s| && k < |BackFields(s, d, n)|
    ensures 0 <= BackFields(s, d, n)[k].so < n
    ensures BackFields(s, d, n)[k].so == 0 ==> k == |BackFields(s, d, n)| - 1
  {
    if Eol(s[n - 1]) || s[n - 1] == d {
      OnlyLastOpen(s, d, n - 1, k);
    } else if k > 0 {
      OnlyLastOpen(s, d, BeginOf(s, d, n), k - 1);
    }
  }

  // `rest` is still to be stored.
  ghost predicate Cutting(fields: seq<Match>, rest: seq<Match>, pmatch: array<Match>, was: seq<Match>,
                          g: nat, instring: bool, end: int)
    reads pmatch
  {
    && |was| == pmatch.Length
    && Stored(pmatch, g, fields) && (g <= pmatch.Length || g == 1) && (instring ==> g < pmatch.Length)
    && (forall k :: 0 <= k < g - 1 ==> fields[k].so > 0)
    && fields[g - 1..] == rest
    && (g < pmatch.Length ==> pmatch[g] == (if instring then was[g].(eo := end) else was[g]))
    && forall j :: g < j < pmatch.Length || j == 0 < pmatch.Length ==> pmatch[j] == was[j]
  }

  // One turn of the loop of the reverse cutter.
  method CutBackChar(d: char, s: string, pmatch: array<Match>, i: nat, g0: nat, instring0: bool,
                     ghost fields: seq<Match>, ghost rest: seq<Match>, ghost was: seq<Match>, ghost end: int)
    returns (g: nat, instring: bool)
    requires i < |s| && g0 < pmatch.Length && Cutting(fields, rest, pmatch, was, g0, instring0, end)
    requires instring0 && Delimits(s[i], d) ==> rest != [] && rest[0] == Match(i + 1, end)
    modifies pmatch
    ensures instring == if Eol(s[i]) then instring0 else s[i] != d
    ensures Cutting(fields, if instring0 && Delimits(s[i], d) then rest[1..] else rest, pmatch, was, g,
                    instring, if instring0 then end else i + 1)
  {
    g, instring := g0, instring0;
    if !Eol(s[i]) {
      if !instring {
        if s[i] != d {
          instring := true;
          pmatch[g] := pmatch[g].(eo := i + 1);
        }
      } else if s[i] == d {
        instring := false;
        assert fields[g - 1] == rest[0] && fields[g..] == rest[1..];
        pmatch[g] := pmatch[g].(so := i + 1);
        g := g + 1;
      }
    }
  }

  // Fields stored completely are closed.
  lemma StoredAreClosed(fields: seq<Match>, g: nat)
    requires 1 <= g <= |fields| + 1 && forall k :: 0 <= k < g - 1 ==> fields[k].so > 0
    ensures g <= Closed(fields) + 1
  {
  }

  lemma LineDone(fields: seq<Match>, g: nat, instring: bool, end: int)
    requires 1 <= g <= |fields| + 1 && fields[g - 1..] == if instring then [Match(0, end)] else []
    requires forall k :: 0 <= k < g - 1 ==> fields[k].so > 0
    ensures instring == Open(fields) && g == Closed(fields) + 1
    ensures instring ==> fields[g - 1] == Match(0, end)
  {
  }

  // The same with the fields still to be stored.
  method CutBackTurn(d: char, s: string, pmatch: array<Match>, i: nat, g0: nat, instring0: bool,
                     ghost fields: seq<Match>, ghost rest0: seq<Match>, ghost was: seq<Match>, ghost end0: int)
    returns (g: nat, instring: bool, ghost rest: seq<Match>, ghost end: int)
    requires i < |s| && g0 < pmatch.Length && Cutting(fields, rest0, pmatch, was, g0, instring0, end0)
    requires rest0 == PendingBack(s, d, i + 1, instring0, end0)
    modifies pmatch
    ensures Cutting(fields, rest, pmatch, was, g, instring, end) && rest == PendingBack(s, d, i, instring, end)
  {
    BackTurn(s, d, i + 1, instring0, end0, rest0);
    g, instring := CutBackChar(d, s, pmatch, i, g0, instring0, fields, rest0, was, end0);
    rest := if instring0 && Delimits(s[i], d) then rest0[1..] else rest0;
    end := if instring0 then end0 else i + 1;
  }

  // The loop of the reverse cutter; a field is stored when the delimiter before
  // it is met, of an open field only the end is.
  method CutBackLoop(d: char, s: string, pmatch: array<Match>, ghost fields: seq<Match>)
    returns (g: nat, instring: bool, ghost rest: seq<Match>, ghost end: int)
    requires fields == PendingBack(s, d, |s|, false, 0)
    modifies pmatch
    ensures Cutting(fields, rest, pmatch, old(pmatch[..]), g, instring, end)
    ensures g < pmatch.Length ==> rest == if instring then [Match(0, end)] else []
  {
    ghost var was := pmatch[..];
    var i := |s| - 1;
    rest := fields;
    g, instring, end := 1, false, 0;
    while i >= 0 && g < pmatch.Length
      invariant -1 <= i < |s|
      invariant rest == PendingBack(s, d, i + 1, instring, end)
      invariant Cutting(fields, rest, pmatch, was, g, instring, end)
    {
      g, instring, rest, end := CutBackTurn(d, s, pmatch, i, g, instring, fields, rest, was, end);
      i := i - 1;
    }
  }

  // The array is full, or the whole line has been read.
  method CutBackFields(d: char, s: string, pmatch: array<Match>) returns (g: nat, instring: bool)
    modifies pmatch
    ensures var fields := BackFields(s, d, |s|);
            && Stored(pmatch, g, fields)
            && if Closed(fields) + 1 < pmatch.Length then
                 && instring == Open(fields) && g == Closed(fields) + 1
                 && pmatch[g] == (if instring then old(pmatch[g]).(eo := fields[g - 1].eo) else old(pmatch[g]))
               else
                 g >= pmatch.Length && !instring
    ensures forall j :: g < j < pmatch.Length || j == 0 < pmatch.Length ==> pmatch[j] == old(pmatch[j])
  {
    ghost var fields := BackFields(s, d, |s|);
    ghost var rest, end;
    g, instring, rest, end := CutBackLoop(d, s, pmatch, fields);
    if g < pmatch.Length {
      LineDone(fields, g, instring, end);
    } else {
      StoredAreClosed(fields, g);
    }
  }

  // The test after the loop is the wrong way round: the start of an open field
  // is never stored, and without one an entry is started that has no field.  If
  // the array is full by then, that entry is past its end.
  predicate RCutDone(d: char, s: string, was: seq<Match>, now: seq<Match>, rc: Code) {
    var fields := BackFields(s, d, |s|);
    var m := |fields|;
    && |was| == |now|
    && rc == (if Closed(fields) + 1 >= |now| then Overrun
              else if Open(fields) || m + 2 < |now| then Found else NoMatch)
    && (forall j :: 1 <= j <= Closed(fields) && j < |now| ==> now[j] == fields[j - 1])
    && (rc != Overrun ==>
          && (if Open(fields) then now[m] == Match(was[m].so, fields[m - 1].eo)
              else now[m + 1] == Match(0, was[m + 1].eo))
          && (forall j :: (if Open(fields) then m else m + 1) < j < |now| ==> now[j] == was[j]))
    && (if rc == Found then
          && (m > 0 ==> now[0].eo == fields[0].eo)
          && (Open(fields) && m > 1 ==> now[0].so == fields[m - 2].so)
          && (!Open(fields) ==> now[0].so == 0)
        else |now| > 0 ==> now[0] == was[0])
  }

  method RCutExec(d: char, s: string, pmatch: array<Match>) returns (rc: Code)
    modifies pmatch
    ensures RCutDone(d, s, old(pmatch[..]), pmatch[..], rc)
  {
    var g, instring := CutBackFields(d, s, pmatch);
    if !instring {
      if g >= pmatch.Length {
        return Overrun;
      }
      pmatch[g] := pmatch[g].(so := 0);
      g := g + 1;
    }
    if g >= pmatch.Length {
      return NoMatch;
    }
    pmatch[0] := pmatch[0].(so := pmatch[g - 1].so);
    pmatch[0] := pmatch[0].(eo := pmatch[1].eo);
    rc := Found;
  }

  // ---------------------------------------------------------------- the condition on the line

  // The first character before position n that is not a line end.
  function FirstReal(s: string, n: nat): (p: nat)
    requires n <= |s|
    ensures p <= n && forall k :: 0 <= k < p ==> Eol(s[k])
    ensures p < n ==> !Eol(s[p])
  {
    if n == 0 then 0
    else
      var p := FirstReal(s, n - 1);
      if p < n - 1 then p else if Eol(s[n - 1]) then n else n - 1
  }

  // Line ends aside, the first n characters begin with a field.
  predicate LeadsIn(s: string, d: char, n: nat)
    requires n <= |s|
  {
    FirstReal(s, n) < n && s[FirstReal(s, n)] != d
  }

  // The leftmost field is open exactly if the line, line ends aside, begins
  // with one.
  lemma {:induction false} OpenIfLeadsIn(s: string, d: char, n: nat)
    requires n <= |s|
    ensures Open(BackFields(s, d, n)) <==> LeadsIn(s, d, n)
  {
    if n > 0 {
      if Eol(s[n - 1]) || s[n - 1] == d {
        OpenIfLeadsIn(s, d, n - 1);
      } else {
        var b := BeginOf(s, d, n);
        OpenIfLeadsIn(s, d, b);
        if b > 0 {
          assert Delimits(s[b - 1], d) && FirstReal(s, b) < b;
          FirstRealStays(s, b, n);
        }
      }
    }
  }

  lemma {:induction false} FirstRealStays(s: string, b: nat, n: nat)
    requires b <= n <= |s| && FirstReal(s, b) < b
    ensures FirstReal(s, n) == FirstReal(s, b)
  {
    if b < n {
      FirstRealStays(s, b, n - 1);
    }
  }

  // Without line ends: if it is not empty and does not begin with a delimiter.
  lemma OpenOnPlainLine(s: string, d: char)
    requires Plain(s)
    ensures Open(BackFields(s, d, |s|)) <==> s != "" && s[0] != d
  {
    OpenIfLeadsIn(s, d, |s|);
  }

  // ---------------------------------------------------------------- one is the mirror of the other

  predicate Plain(s: string) {
    forall k :: 0 <= k < |s| ==> !Eol(s[k])
  }

  function Reverse(a: seq<Match>): seq<Match> {
    if a == [] then [] else Reverse(a[1..]) + [a[0]]
  }

  lemma {:induction false} ReverseAt(a: seq<Match>, j: nat)
    requires j < |a|
    ensures |Reverse(a)| == |a| && Reverse(a)[|a| - 1 - j] == a[j]
  {
    if j > 0 {
      ReverseAt(a[1..], j - 1);
    } else if |a| > 1 {
      ReverseAt(a[1..], 0);
    }
  }

  lemma {:induction false} BackIsReversed(s: string, d: char, n: nat)
    requires n <= |s| && Plain(s) && CutPoint(s, d, n)
    ensures Reverse(BackFields(s, d, n)) + Fields(s, d, n) == Fields(s, d, 0)
  {
    if n > 0 {
      if s[n - 1] == d {
        BackIsReversed(s, d, n - 1);
      } else {
        var b := BeginOf(s, d, n);
        var f, back := Match(b, n), BackFields(s, d, b);
        EndOfIs(s, d, b, n);
        BackIsReversed(s, d, b);
        calc {
          Reverse(BackFields(s, d, n)) + Fields(s, d, n);
        ==  { assert ([f] + back)[1..] == back; }
          (Reverse(back) + [f]) + Fields(s, d, n);
        ==
          Reverse(back) + ([f] + Fields(s, d, n));
        ==
          Reverse(back) + Fields(s, d, b);
        }
      }
    }
  }

  // On a line without line-end characters field j from the right is field
  // m + 1 - j from the left.
  lemma Mirror(s: string, d: char, j: nat)
    requires Plain(s)
    ensures var left, right := Fields(s[..Cut(s)], d, 0), BackFields(s, d, |s|);
            var m := |right|;
            |left| == m && (1 <= j <= m ==> right[j - 1] == left[m - j])
  {
    var right := BackFields(s, d, |s|);
    BackIsReversed(s, d, |s|);
    assert s[..Cut(s)] == s;
    if 1 <= j <= |right| {
      ReverseAt(right, j - 1);
    } else if right != [] {
      ReverseAt(right, 0);
    }
  }

  // Entry j of one array is entry m + 1 - j of the other for all but the
  // leftmost of m fields, and for that too exactly if `whole` holds.
  predicate MirrorEntries(left: seq<Match>, right: seq<Match>, m: nat, whole: bool) {
    && m < |left| == |right|
    && (forall j :: 1 <= j < m ==> right[j] == left[m + 1 - j])
    && (m > 0 ==> (right[m] == left[1] <==> whole))
  }

  // What the two cutters store for a line without line-end characters: the
  // entry of the leftmost field is the same exactly if the line begins with a
  // delimiter or the start that is not stored happened to be 0 before.
  lemma StoredMirror(d: char, s: string, left0: seq<Match>, left: seq<Match>, rc: Code,
                     right0: seq<Match>, right: seq<Match>, rc': Code)
    requires Plain(s) && CutDone(d, s, left0, left, rc) && RCutDone(d, s, right0, right, rc')
    requires |left| == |right| && rc' != Overrun
    ensures var m := |Fields(s, d, 0)|;
            && m < |right0| == |right| && (m == |right| - 1 ==> m > 0 && s[0] != d)
            && MirrorEntries(left, right, m, s != "" && (s[0] == d || right0[m].so == 0))
  {
    var fields := Fields(s, d, 0);
    var back, m := BackFields(s, d, |s|), |fields|;
    assert s[..Cut(s)] == s;
    OpenOnPlainLine(s, d);
    Mirror(s, d, 0);
    forall k | 0 <= k < m
      ensures back[k] == fields[m - 1 - k]
    {
      Mirror(s, d, k + 1);
    }
    if m > 0 {
      assert left[1] == fields[0] == back[m - 1];
      OnlyLastOpen(s, d, |s|, m - 1);
    }
  }
  lemma FieldsOfTwo(s: string)
    requires s == "a b"
    ensures Fields(s, ' ', 0) == [Match(0, 1), Match(2, 3)]
  {
    EndOfIs(s, ' ', 0, 1);
    EndOfIs(s, ' ', 2, 3);
    assert Fields(s, ' ', 2) == [Match(2, 3)];
    assert Fields(s, ' ', 1) == [Match(2, 3)];
  }

  lemma BackFieldsOfTwo(s: string)
    requires s == "a b"
    ensures BackFields(s, ' ', |s|) == [Match(2, 3), Match(0, 1)]
  {
    assert BeginOf(s, ' ', 1) == 0 && BeginOf(s, ' ', 3) == 2;
    assert BackFields(s, ' ', 1) == [Match(0, 1)];
    assert BackFields(s, ' ', 2) == [Match(0, 1)];
  }

  // For example "a b", cut at blanks, where the start left unset was 7.
  lemma StoredMirrorFails(left0: seq<Match>, left: seq<Match>, rc: Code, right0: seq<Match>, right: seq<Match>,
                          rc': Code)
    requires |left0| == |right0| > 3 && right0[2].so == 7
    requires CutDone(' ', "a b", left0, left, rc) && RCutDone(' ', "a b", right0, right, rc')
    ensures rc == rc' == Found && left[1] == Match(0, 1) && right[2] == Match(7, 1)
  {
    var s := "a b";
    assert s[..Cut(s)] == s;
    FieldsOfTwo(s);
    BackFieldsOfTwo(s);
  }
}
