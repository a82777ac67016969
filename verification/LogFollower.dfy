// The follower of a growing log file.  It harvests one matching line per call
// and posts one event to itself for every further matching line it sees, so
// that the master calls it again.  The file is a sequence of whole lines.
module LogFollower {

  type Line = string

  type Pattern = Line -> bool

  datatype Option<T> = None | Some(value: T)

  // `pos` and `eof` belong to the open file; `out` records the lines harvested
  // and `scanEnd` the end of the last scan to the end of the file.
  datatype Log = Log(
    file: seq<Line>, pos: nat, eof: bool, fpCurr: nat, fpValid: nat,
    backlog: nat, cleared: nat, out: seq<Line>, scanEnd: nat)

  datatype Reply = Reply(log: Log, posted: nat, code: int)

  function Matches(m: Pattern, file: seq<Line>): seq<Line> {
    if file == [] then [] else (if m(file[0]) then [file[0]] else []) + Matches(m, file[1..])
  }

  // The first matching line at or after `from`; |file| if there is none.
  function NextMatch(m: Pattern, file: seq<Line>, from: nat): (k: nat)
    requires from <= |file|
    ensures from <= k <= |file|
    ensures k < |file| ==> m(file[k])
    ensures forall j :: from <= j < k ==> !m(file[j])
    decreases |file| - from
  {
    if from == |file| || m(file[from]) then from else NextMatch(m, file, from + 1)
  }

  function Opened(file: seq<Line>): Log {
    Log(file, 0, false, 0, 0, 0, 0, [], 0)
  }

  // One call, during which the file grows to `file`.
  function Serve(m: Pattern, log: Log, file: seq<Line>): Reply
    requires log.file <= file && log.pos <= |log.file| && log.fpCurr <= |log.file|
  {
    var k := NextMatch(m, file, if log.eof then log.fpCurr else log.pos);
    if k == |file| || k + 1 == log.fpValid then
      var end := if k == |file| then k else k + 1;
      Reply(log.(file := file, pos := end, fpCurr := end, eof := k == |file|), 0, -2)
    else
      Take(m, log, file, k)
  }

  // Line k is harvested; unless back-logged lines remain the rest is scanned.
  function Take(m: Pattern, log: Log, file: seq<Line>, k: nat): Reply
    requires k < |file|
  {
    var out := log.out + [file[k]];
    if log.backlog > 1 then
      Reply(Log(file, k + 1, false, k + 1, k + 1, log.backlog - 1, log.cleared + 1, out, log.scanEnd), 0, 0)
    else
      var more := |Matches(m, file[k + 1..])|;
      var pos := if more > 0 then k + 1 else |file|;
      Reply(Log(file, pos, more == 0, pos, k + 1, more, 0, out, |file|), more, 0)
  }

  // Before a call.
  predicate Settled(log: Log) {
    log.fpValid <= log.pos == log.fpCurr <= |log.file|
  }

  // The harvested lines are the matching lines before fpValid, the back-log is
  // the number of matching lines between fpValid and the last full scan.
  ghost predicate Valid(m: Pattern, log: Log) {
    && log.fpValid <= log.pos == log.fpCurr <= |log.file|
    && log.fpValid <= log.scanEnd <= |log.file|
    && log.out == Matches(m, log.file[..log.fpValid])
    && log.backlog == |Matches(m, log.file[log.fpValid..log.scanEnd])|
    && (forall j :: log.fpValid <= j < log.pos ==> !m(log.file[j]))
    && (log.backlog > 0 ==> log.pos == log.fpValid)
  }

  // Matching lines in the file not yet harvested.
  function Unharvested(m: Pattern, log: Log): nat
    requires log.fpValid <= |log.file|
  {
    |Matches(m, log.file[log.fpValid..])|
  }

  // ---------------------------------------------------------------- matching lines

  lemma Regroup(a: seq<Line>, b: seq<Line>, c: seq<Line>)
    ensures a + (b + c) == (a + b) + c
  {
  }

  lemma {:induction false} MatchesJoin(m: Pattern, a: seq<Line>, b: seq<Line>)
    ensures Matches(m, a + b) == Matches(m, a) + Matches(m, b)
  {
    if a == [] {
      assert a + b == b;
    } else {
      MatchesJoin(m, a[1..], b);
      assert (a + b)[1..] == a[1..] + b;
      Regroup(if m(a[0]) then [a[0]] else [], Matches(m, a[1..]), Matches(m, b));
    }
  }

  lemma {:induction false} MatchesNone(m: Pattern, a: seq<Line>)
    requires forall j :: 0 <= j < |a| ==> !m(a[j])
    ensures Matches(m, a) == []
  {
    if a != [] {
      MatchesNone(m, a[1..]);
    }
  }

  // A stretch whose only matching line, if any, is its last.
  lemma MatchesUpTo(m: Pattern, file: seq<Line>, from: nat, k: nat, end: nat)
    requires from <= k < end <= |file| && m(file[k])
    requires forall j :: from <= j < k ==> !m(file[j])
    ensures Matches(m, file[from..end]) == [file[k]] + Matches(m, file[k + 1..end])
  {
    assert file[from..end] == file[from..k] + ([file[k]] + file[k + 1..end]);
    MatchesJoin(m, file[from..k], [file[k]] + file[k + 1..end]);
    MatchesNone(m, file[from..k]);
  }

  lemma MatchesCut(m: Pattern, file: seq<Line>, from: nat, mid: nat, end: nat)
    requires from <= mid <= end <= |file|
    ensures Matches(m, file[from..end]) == Matches(m, file[from..mid]) + Matches(m, file[mid..end])
  {
    assert file[from..end] == file[from..mid] + file[mid..end];
    MatchesJoin(m, file[from..mid], file[mid..end]);
  }

  lemma MatchesNext(m: Pattern, was: seq<Line>, file: seq<Line>, from: nat, k: nat)
    requires was <= file && from <= k <= |was| && k < |file|
    ensures Matches(m, file[from..k + 1]) == Matches(m, was[from..k]) + (if m(file[k]) then [file[k]] else [])
  {
    assert file[from..k] == was[from..k] && file[k..k + 1] == [file[k]];
    MatchesCut(m, file, from, k, k + 1);
  }

  lemma SameMatches(m: Pattern, was: seq<Line>, file: seq<Line>, from: nat, k: nat)
    requires was <= file && from <= k <= |was|
    ensures Matches(m, file[from..k]) == Matches(m, was[from..k])
  {
    assert file[from..k] == was[from..k];
  }

  lemma {:induction false} NoneMatch(m: Pattern, a: seq<Line>)
    requires Matches(m, a) == []
    ensures forall j :: 0 <= j < |a| ==> !m(a[j])
  {
    if a != [] {
      NoneMatch(m, a[1..]);
      assert forall j :: 1 <= j < |a| ==> a[j] == a[1..][j - 1];
    }
  }

  lemma NoneFrom(m: Pattern, file: seq<Line>, from: nat)
    requires from <= |file| && Matches(m, file[from..]) == []
    ensures forall j :: from <= j < |file| ==> !m(file[j])
  {
    NoneMatch(m, file[from..]);
    assert forall j :: from <= j < |file| ==> file[j] == file[from..][j - from];
  }

  // ---------------------------------------------------------------- one call

  lemma {:induction false} NextMatchFirst(m: Pattern, file: seq<Line>, from: nat, k: nat)
    requires from <= k <= |file| && (k < |file| ==> m(file[k]))
    requires forall j :: from <= j < k ==> !m(file[j])
    ensures NextMatch(m, file, from) == k
    decreases k - from
  {
  }

  lemma Appended(m: Pattern, log: Log, file: seq<Line>)
    requires Valid(m, log) && log.file <= file
    ensures Valid(m, log.(file := file))
  {
    assert file[..log.fpValid] == log.file[..log.fpValid];
    assert file[log.fpValid..log.scanEnd] == log.file[log.fpValid..log.scanEnd];
  }

  // A line found within the back-log is a back-logged one.
  lemma FoundInBacklog(m: Pattern, log: Log, file: seq<Line>, k: nat)
    requires Valid(m, log) && file == log.file && log.backlog > 0
    requires k == NextMatch(m, file, log.pos)
    ensures k < log.scanEnd
    ensures log.backlog == 1 + |Matches(m, file[k + 1..log.scanEnd])|
  {
    if k >= log.scanEnd {
      MatchesNone(m, file[log.fpValid..log.scanEnd]);
    }
    MatchesUpTo(m, file, log.fpValid, k, log.scanEnd);
  }

  lemma FoundLine(m: Pattern, log: Log, k: nat)
    requires Valid(m, log) && k == NextMatch(m, log.file, log.pos) < |log.file|
    ensures log.out + [log.file[k]] == Matches(m, log.file[..k + 1])
  {
    var file := log.file;
    MatchesCut(m, file, 0, log.fpValid, k + 1);
    MatchesUpTo(m, file, log.fpValid, k, k + 1);
    assert file[0..k + 1] == file[..k + 1] && file[0..log.fpValid] == file[..log.fpValid];
    assert file[k + 1..k + 1] == [];
  }

  lemma RestAfter(m: Pattern, log: Log, k: nat)
    requires Valid(m, log) && k == NextMatch(m, log.file, log.pos) < |log.file|
    ensures Matches(m, log.file[log.fpValid..]) == [log.file[k]] + Matches(m, log.file[k + 1..])
  {
    MatchesUpTo(m, log.file, log.fpValid, k, |log.file|);
    assert log.file[log.fpValid..|log.file|] == log.file[log.fpValid..];
    assert log.file[k + 1..|log.file|] == log.file[k + 1..];
  }

  // Nothing more matches: the call is in vain.
  lemma ServeInVain(m: Pattern, log: Log)
    requires Valid(m, log) && NextMatch(m, log.file, log.pos) == |log.file|
    ensures Matches(m, log.file[log.fpValid..]) == [] && log.backlog == 0
    ensures var n := |log.file|; Valid(m, log.(pos := n, fpCurr := n, eof := true))
  {
    MatchesNone(m, log.file[log.fpValid..]);
    MatchesNone(m, log.file[log.fpValid..log.scanEnd]);
  }

  // One back-logged line is caught up and others remain.
  lemma ServeBacklog(m: Pattern, log: Log, k: nat)
    requires Valid(m, log) && k == NextMatch(m, log.file, log.pos) < |log.file| && log.backlog >= 2
    ensures Valid(m, Log(log.file, k + 1, false, k + 1, k + 1, log.backlog - 1, log.cleared + 1,
                         log.out + [log.file[k]], log.scanEnd))
  {
    FoundLine(m, log, k);
    FoundInBacklog(m, log, log.file, k);
  }

  // Line k is harvested and the rest of the file scanned.
  lemma ScanIsValid(m: Pattern, file: seq<Line>, k: nat, out: seq<Line>, more: nat, pos: nat)
    requires k < |file| && out == Matches(m, file[..k + 1])
    requires more == |Matches(m, file[k + 1..])| && pos == (if more > 0 then k + 1 else |file|)
    ensures Valid(m, Log(file, pos, more == 0, pos, k + 1, more, 0, out, |file|))
  {
    assert file[k + 1..|file|] == file[k + 1..];
    if more == 0 {
      NoneFrom(m, file, k + 1);
    }
  }

  // What a call does to the lines not yet harvested, to the back-log and to
  // the events.
  ghost predicate Served(m: Pattern, log: Log, r: Reply, file: seq<Line>)
    requires Valid(m, log) && log.file <= file
  {
    var left := Matches(m, file[log.fpValid..]);
    && Valid(m, r.log) && r.log.file == file
    && if left == [] then
         && r.code == -2 && r.posted == 0
         && r.log.backlog == log.backlog == 0
         && r.log.out == log.out && Unharvested(m, r.log) == 0
       else
         && r.code == 0
         && r.log.out == log.out + [left[0]] && Unharvested(m, r.log) == |left| - 1
         && if log.backlog >= 2 then r.posted == 0 && r.log.backlog == log.backlog - 1
            else r.posted == r.log.backlog == |left| - 1
  }

  lemma ServeTakes(m: Pattern, log: Log, k: nat)
    requires Settled(log) && k == NextMatch(m, log.file, log.pos) < |log.file|
    ensures Serve(m, log, log.file) == Take(m, log, log.file, k)
  {
  }

  // What is left after line k was the first of what was left before.
  lemma LeftAfter(m: Pattern, log: Log, k: nat)
    requires Valid(m, log) && k == NextMatch(m, log.file, log.pos) < |log.file|
    ensures var left := Matches(m, log.file[log.fpValid..]);
            left != [] && left[0] == log.file[k] && |left| - 1 == |Matches(m, log.file[k + 1..])|
  {
    RestAfter(m, log, k);
  }

  lemma ScanServes(m: Pattern, log: Log, k: nat)
    requires Valid(m, log) && k == NextMatch(m, log.file, log.pos) < |log.file| && log.backlog < 2
    ensures Served(m, log, Take(m, log, log.file, k), log.file)
  {
    var r := Take(m, log, log.file, k);
    assert Valid(m, r.log) by {
      FoundLine(m, log, k);
      ScanIsValid(m, log.file, k, log.out + [log.file[k]], |Matches(m, log.file[k + 1..])|, r.log.pos);
    }
    LeftAfter(m, log, k);
  }

  lemma BacklogServes(m: Pattern, log: Log, k: nat)
    requires Valid(m, log) && k == NextMatch(m, log.file, log.pos) < |log.file| && log.backlog >= 2
    ensures Served(m, log, Take(m, log, log.file, k), log.file)
  {
    var r := Take(m, log, log.file, k);
    assert Valid(m, r.log) by {
      ServeBacklog(m, log, k);
    }
    LeftAfter(m, log, k);
  }

  lemma VainServes(m: Pattern, log: Log)
    requires Valid(m, log) && NextMatch(m, log.file, log.pos) == |log.file|
    ensures Served(m, log, Serve(m, log, log.file), log.file)
  {
    ServeInVain(m, log);
  }

  lemma ServesAsGrown(m: Pattern, log: Log, file: seq<Line>)
    requires Valid(m, log) && log.file <= file
    ensures var grown := log.(file := file);
            && Valid(m, grown) && Serve(m, log, file) == Serve(m, grown, file)
            && forall r :: Served(m, grown, r, file) ==> Served(m, log, r, file)
  {
    Appended(m, log, file);
  }

  // A call harvests the first matching line left, or there is none.
  lemma CallServes(m: Pattern, log: Log, file: seq<Line>)
    requires Valid(m, log) && log.file <= file
    ensures Served(m, log, Serve(m, log, file), file)
  {
    var grown := log.(file := file);
    ServesAsGrown(m, log, file);
    var k := NextMatch(m, file, log.pos);
    if k == |file| {
      VainServes(m, grown);
    } else {
      ServeTakes(m, grown, k);
      if log.backlog >= 2 {
        BacklogServes(m, grown, k);
      } else {
        ScanServes(m, grown, k);
      }
    }
  }

  // The state after line k has been harvested.
  ghost predicate Harvested(m: Pattern, log: Log, posted: nat, k: nat, r: Log) {
    && r.fpValid == k + 1 <= |r.file| && r.fpCurr == r.pos
    && r.out == log.out + [r.file[k]]
    && if log.backlog >= 2 then
         && posted == 0 && r.scanEnd == log.scanEnd
         && r.backlog == log.backlog - 1 && r.cleared == log.cleared + 1
         && r.pos == k + 1 && !r.eof
       else
         && r.backlog == |Matches(m, r.file[k + 1..])| == posted && r.cleared == 0
         && r.scanEnd == |r.file|
         && r.pos == (if posted > 0 then k + 1 else |r.file|) && r.eof == (posted == 0)
  }

  lemma FoundStays(m: Pattern, file: seq<Line>, more: seq<Line>, from: nat, k: nat)
    requires file <= more && from <= |file| && k == NextMatch(m, file, from) < |file|
    ensures NextMatch(m, more, from) == k
  {
    NextMatchFirst(m, more, from, k);
  }

  // Line k was the first to match when it was read.
  lemma ServeFound(m: Pattern, log: Log, file: seq<Line>, k: nat, r: Log, posted: nat)
    requires log.file <= file <= r.file && Settled(log)
    requires k == NextMatch(m, file, log.pos) < |file|
    requires Harvested(m, log, posted, k, r)
    ensures Serve(m, log, r.file) == Reply(r, posted, 0)
  {
    FoundStays(m, file, r.file, log.pos, k);
    HarvestedIsTaken(m, log, posted, k, r);
  }

  lemma HarvestedIsTaken(m: Pattern, log: Log, posted: nat, k: nat, r: Log)
    requires Harvested(m, log, posted, k, r)
    ensures Take(m, log, r.file, k) == Reply(r, posted, 0)
  {
  }

  lemma ServeNothing(m: Pattern, log: Log, file: seq<Line>)
    requires log.file <= file && Settled(log)
    requires NextMatch(m, file, log.pos) == |file|
    ensures Serve(m, log, file) == Reply(log.(file := file, pos := |file|, fpCurr := |file|, eof := true), 0, -2)
  {
  }

  // ---------------------------------------------------------------- the program

  class Semaphore {
    var count: nat

    method Post()
      modifies this
      ensures count == old(count) + 1
    {
      count := count + 1;
    }
  }

  // What has been appended to the file when line n of a call is read.
  function Arrived(arrivals: seq<seq<Line>>, n: nat): seq<Line> {
    if n < |arrivals| then arrivals[n] else []
  }

  class Follower {
    const matches: Pattern
    const event: Semaphore
    var file: seq<Line>
    var pos: nat
    var eof: bool
    var fpCurr: nat
    var fpValid: nat
    var backlog: nat
    var cleared: nat
    var val: Line
    ghost var out: seq<Line>
    ghost var scanEnd: nat

    constructor (matches: Pattern, event: Semaphore, file: seq<Line>)
      ensures this.matches == matches && this.event == event
      ensures Snapshot() == Opened(file)
    {
      this.matches, this.event, this.file := matches, event, file;
      pos, eof, fpCurr, fpValid, backlog, cleared, val, out, scanEnd := 0, false, 0, 0, 0, 0, "", [], 0;
    }

    ghost function Snapshot(): Log
      reads this
    {
      Log(file, pos, eof, fpCurr, fpValid, backlog, cleared, out, scanEnd)
    }

    method Seek(to: nat)
      modifies `pos, `eof
      ensures pos == to && !eof
    {
      pos, eof := to, false;
    }

    method Gets(arrived: seq<Line>) returns (line: Option<Line>)
      requires pos <= |file|
      modifies `file, `pos, `eof
      ensures file == old(file) + arrived
      ensures if old(pos) == |file| then line == None && pos == |file| && eof
              else line == Some(file[old(pos)]) && pos == old(pos) + 1 && eof == old(eof)
    {
      file := file + arrived;
      if pos < |file| {
        line, pos := Some(file[pos]), pos + 1;
      } else {
        line, eof := None, true;
      }
    }

    // Reads until a line matches or the file ends.
    method FindLine(arrivals: seq<seq<Line>>) returns (buf: Line, found: bool, n: nat)
      requires pos <= |file| && !eof && !matches("")
      modifies `file, `pos, `eof, `fpCurr
      ensures old(file) <= file
      ensures fpCurr == pos
      ensures var k := NextMatch(matches, file, old(pos));
              if k < |file| then found && buf == file[k] && pos == k + 1 && !eof
              else !found && pos == |file| && eof
    {
      buf, found, n := "", false, 0;
      var cline: Option<Line> := Some("");
      fpCurr := pos;
      while cline.Some? && !found
        invariant old(file) <= file && old(pos) <= pos <= |file| && fpCurr == pos
        invariant forall j :: old(pos) <= j < pos - (if found then 1 else 0) ==> !matches(file[j])
        invariant found == matches(buf)
        invariant found ==> cline.Some? && pos > old(pos) && buf == file[pos - 1]
        invariant cline.None? ==> pos == |file| && eof
        invariant cline.Some? ==> !eof
        decreases if n < |arrivals| then |arrivals| - n else 0, |file| - pos, cline.Some?
      {
        cline := Gets(Arrived(arrivals, n));
        n := n + 1;
        fpCurr := pos;
        if cline.Some? {
          buf := cline.value;
        }
        // When the file has ended this tests the line before once more.
        if matches(buf) {
          found := true;
        }
      }
      NextMatchFirst(matches, file, old(pos), if found then pos - 1 else pos);
    }

    // Reads the next line, if there is one, and posts an event if it matches.
    method ScanLine(arrived: seq<Line>, ghost from: nat) returns (cline: Option<Line>, posted: nat)
      requires from <= pos <= |file|
      modifies `file, `pos, `eof, event
      ensures file == old(file) + arrived && old(pos) <= pos <= |file|
      ensures if cline.None? then pos == old(pos) == |file| && eof else pos == old(pos) + 1 && eof == old(eof)
      ensures event.count == old(event.count) + posted
      ensures |Matches(matches, file[from..pos])| == |Matches(matches, old(file)[from..old(pos)])| + posted
    {
      posted := 0;
      cline := Gets(arrived);
      if cline.Some? {
        MatchesNext(matches, old(file), file, from, old(pos));
        if matches(cline.value) {
          event.Post();
          posted := 1;
        }
      } else {
        SameMatches(matches, old(file), file, from, old(pos));
      }
    }

    // Reads to the end of the file and posts an event for every matching line.
    method ScanToEnd(arrivals: seq<seq<Line>>, n0: nat) returns (posted: nat)
      requires pos <= |file| && !eof
      modifies `file, `pos, `eof, event
      ensures old(file) <= file && pos == |file| && eof
      ensures posted == |Matches(matches, file[old(pos)..])|
      ensures event.count == old(event.count) + posted
    {
      var n := n0;
      var cline: Option<Line> := Some("");
      posted := 0;
      while cline.Some?
        invariant old(file) <= file && old(pos) <= pos <= |file|
        invariant cline.None? ==> pos == |file| && eof
        invariant posted == |Matches(matches, file[old(pos)..pos])|
        invariant event.count == old(event.count) + posted
        decreases if n < |arrivals| then |arrivals| - n else 0, |file| - pos, cline.Some?
      {
        var more;
        cline, more := ScanLine(Arrived(arrivals, n), old(pos));
        n := n + 1;
        posted := posted + more;
      }
      assert file[old(pos)..pos] == file[old(pos)..];
    }

    // Harvests the line just read; unless back-logged lines remain, scans the
    // rest of the file.
    method Harvest(buf: Line, arrivals: seq<seq<Line>>, n: nat)
      requires 0 < pos <= |file| && !eof && fpCurr == pos && file[pos - 1] == buf
      modifies this, event
      ensures old(file) <= file && val == buf && old(event.count) <= event.count
      ensures Harvested(matches, old(Snapshot()), event.count - old(event.count), old(pos) - 1, Snapshot())
    {
      if backlog > 0 {
        backlog, cleared := backlog - 1, cleared + 1;
      }
      val := buf;
      out := out + [buf];
      fpValid := pos;
      if backlog > 0 {
        return;
      }
      cleared := 0;
      var posted := ScanToEnd(arrivals, n);
      backlog := backlog + posted;
      scanEnd := |file|;
      if posted > 0 {
        Seek(fpValid);
      }
      fpCurr := pos;
    }

    // One run of the task.  The file may grow before every line it reads.
    method Call(arrivals: seq<seq<Line>>) returns (code: int)
      requires Settled(Snapshot()) && !matches("")
      modifies this, event
      ensures old(file) <= file
      ensures var r := Serve(matches, old(Snapshot()), file);
              && Snapshot() == r.log && code == r.code
              && event.count == old(event.count) + r.posted
      ensures code == 0 ==> out == old(out) + [val]
    {
      ghost var pre := Snapshot();
      if eof {
        Seek(fpCurr);
      }
      var buf, found, n := FindLine(arrivals);
      if fpValid == pos {
        found := false;
      }
      if !found {
        code := -2;
        ServeNothing(matches, pre, file);
      } else {
        ghost var k, read := pos - 1, file;
        Harvest(buf, arrivals, n);
        code := 0;
        ServeFound(matches, pre, read, k, Snapshot(), event.count - old(event.count));
      }
    }
  }
}
