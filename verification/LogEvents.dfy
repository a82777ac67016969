// Any number of log followers driven by the same semaphore of events.  In
// every round the master takes one event and every follower is called once;
// files grow at any moment and each growth is notified by an event later on.
module LogEvents {
  import opened LogFollower

  // `due` marks the followers not yet called in this round; `pending` counts
  // the notifications still to come.  A change of a file brings a notification
  // only if none is outstanding: identical ones are merged, and any further one
  // is a post.
  datatype State = State(logs: seq<Log>, due: seq<bool>, events: nat, pending: nat)

  datatype Action =
    | Append(f: nat, lines: seq<Line>)
    | Notify
    | Post
    | Take
    | Call(f: nat, lines: seq<Line>)

  predicate Boundary(s: State) {
    forall j :: 0 <= j < |s.due| ==> !s.due[j]
  }

  predicate Positioned(log: Log) {
    log.pos <= |log.file| && log.fpCurr <= |log.file|
  }

  predicate Enabled(s: State, a: Action) {
    match a
    case Append(f, lines) => f < |s.logs| && lines != []
    case Notify => s.pending > 0
    case Post => true
    case Take => s.events > 0 && Boundary(s)
    case Call(f, _) => f < |s.logs| && f < |s.due| && s.due[f] && Positioned(s.logs[f])
  }

  function Changed(pending: nat): nat {
    if pending > 0 then pending else 1
  }

  function Apply(ms: seq<Pattern>, s: State, a: Action): State
    requires Enabled(s, a) && |ms| == |s.logs|
  {
    match a
    case Append(f, lines) =>
      var log := s.logs[f];
      s.(logs := s.logs[f := log.(file := log.file + lines)], pending := Changed(s.pending))
    case Notify => s.(pending := s.pending - 1, events := s.events + 1)
    case Post => s.(events := s.events + 1)
    case Take => s.(events := s.events - 1, due := seq(|s.logs|, i => true))
    case Call(f, lines) =>
      // The file may grow during the call.
      var r := Serve(ms[f], s.logs[f], s.logs[f].file + lines);
      State(s.logs[f := r.log], s.due[f := false], s.events + r.posted,
            if lines == [] then s.pending else Changed(s.pending))
  }

  // One event is posted at the start for what the files already hold.
  function Init(files: seq<seq<Line>>): State {
    State(seq(|files|, i requires 0 <= i < |files| => Opened(files[i])), seq(|files|, i => false),
          if files == [] then 0 else 1, 0)
  }

  predicate CanRun(ms: seq<Pattern>, s: State, acts: seq<Action>)
    requires |ms| == |s.logs|
    decreases acts
  {
    acts == [] || (Enabled(s, acts[0]) && CanRun(ms, Apply(ms, s, acts[0]), acts[1..]))
  }

  function After(ms: seq<Pattern>, s: State, acts: seq<Action>): State
    requires |ms| == |s.logs| && CanRun(ms, s, acts)
    decreases acts
  {
    if acts == [] then s else After(ms, Apply(ms, s, acts[0]), acts[1..])
  }

  // ---------------------------------------------------------------- events pay for lines

  function Owed(due: bool): nat {
    if due then 1 else 0
  }

  // Matching lines after the last full scan.
  function Unseen(m: Pattern, log: Log): int
    requires log.fpValid <= |log.file|
  {
    Unharvested(m, log) - log.backlog
  }

  // There is an event for every back-logged line, and one more event or
  // notification to come if there are lines not yet seen.
  ghost predicate Paid(m: Pattern, log: Log, due: bool, events: nat, pending: nat) {
    && Valid(m, log)
    && Unseen(m, log) >= 0
    && events + Owed(due) >= log.backlog
    && (Unseen(m, log) > 0 ==> events + pending + Owed(due) >= log.backlog + 1)
  }

  ghost predicate Inv(ms: seq<Pattern>, s: State) {
    && |ms| == |s.logs| == |s.due|
    && forall j :: 0 <= j < |ms| ==> Paid(ms[j], s.logs[j], s.due[j], s.events, s.pending)
  }

  lemma SomeSeen(m: Pattern, log: Log)
    requires Valid(m, log)
    ensures Unseen(m, log) >= 0
  {
    MatchesCut(m, log.file, log.fpValid, log.scanEnd, |log.file|);
    assert log.file[log.fpValid..|log.file|] == log.file[log.fpValid..];
  }

  lemma AppendPaid(m: Pattern, log: Log, lines: seq<Line>, due: bool, events: nat, pending: nat)
    requires Paid(m, log, due, events, pending)
    ensures Paid(m, log.(file := log.file + lines), due, events, Changed(pending))
  {
    Appended(m, log, log.file + lines);
    SomeSeen(m, log.(file := log.file + lines));
  }

  lemma CallPaid(m: Pattern, log: Log, lines: seq<Line>, events: nat, pending: nat)
    requires Paid(m, log, true, events, pending)
    ensures var r := Serve(m, log, log.file + lines);
            Paid(m, r.log, false, events + r.posted, if lines == [] then pending else Changed(pending))
  {
    var file := log.file + lines;
    var r := Serve(m, log, file);
    CallServes(m, log, file);
    SomeSeen(m, r.log);
    if lines == [] {
      assert file == log.file;
    }
  }

  lemma StepKeepsInv(ms: seq<Pattern>, s: State, a: Action)
    requires Inv(ms, s) && Enabled(s, a)
    ensures Inv(ms, Apply(ms, s, a))
  {
    var t := Apply(ms, s, a);
    forall j | 0 <= j < |ms|
      ensures Paid(ms[j], t.logs[j], t.due[j], t.events, t.pending)
    {
      assert Paid(ms[j], s.logs[j], s.due[j], s.events, s.pending);
      if a.Append? && a.f == j {
        AppendPaid(ms[j], s.logs[j], a.lines, s.due[j], s.events, s.pending);
      } else if a.Call? && a.f == j {
        CallPaid(ms[j], s.logs[j], a.lines, s.events, s.pending);
      }
    }
  }

  lemma InitInv(ms: seq<Pattern>, files: seq<seq<Line>>)
    requires |ms| == |files|
    ensures Inv(ms, Init(files))
  {
    var s := Init(files);
    forall j | 0 <= j < |ms|
      ensures Paid(ms[j], s.logs[j], false, 1, 0)
    {
      assert Valid(ms[j], s.logs[j]);
      SomeSeen(ms[j], s.logs[j]);
    }
  }

  lemma {:induction false} RunKeepsInv(ms: seq<Pattern>, s: State, acts: seq<Action>)
    requires Inv(ms, s) && CanRun(ms, s, acts)
    ensures Inv(ms, After(ms, s, acts))
    decreases acts
  {
    if acts != [] {
      StepKeepsInv(ms, s, acts[0]);
      RunKeepsInv(ms, Apply(ms, s, acts[0]), acts[1..]);
    }
  }

  ghost predicate Reaches(ms: seq<Pattern>, files: seq<seq<Line>>, acts: seq<Action>, s: State) {
    |ms| == |files| && CanRun(ms, Init(files), acts) && s == After(ms, Init(files), acts)
  }

  // ---------------------------------------------------------------- what every run keeps

  // The harvested lines are exactly the matching lines before fpValid and the
  // back-log counts those from there to the end of the last full scan.
  lemma HarvestIsExact(ms: seq<Pattern>, files: seq<seq<Line>>, acts: seq<Action>, s: State, j: nat)
    requires Reaches(ms, files, acts, s) && j < |ms|
    ensures |s.logs| == |ms|
    ensures var log := s.logs[j];
            && log.fpValid <= log.scanEnd <= |log.file|
            && log.out == Matches(ms[j], log.file[..log.fpValid])
            && log.backlog == |Matches(ms[j], log.file[log.fpValid..log.scanEnd])|
  {
    InitInv(ms, files);
    RunKeepsInv(ms, Init(files), acts);
  }

  // At every round boundary there are events for every back-log.
  lemma EventsCoverBacklogs(ms: seq<Pattern>, files: seq<seq<Line>>, acts: seq<Action>, s: State, j: nat)
    requires Reaches(ms, files, acts, s) && Boundary(s) && j < |ms|
    ensures |s.logs| == |ms| && s.events >= s.logs[j].backlog
  {
    InitInv(ms, files);
    RunKeepsInv(ms, Init(files), acts);
  }

  // When the master finds no event and none is to come, every matching line of
  // every file has been harvested.
  lemma NothingIsLost(ms: seq<Pattern>, files: seq<seq<Line>>, acts: seq<Action>, s: State, j: nat)
    requires Reaches(ms, files, acts, s) && Boundary(s) && j < |ms|
    requires s.events == 0 && s.pending == 0
    ensures |s.logs| == |ms| && s.logs[j].out == Matches(ms[j], s.logs[j].file)
  {
    InitInv(ms, files);
    RunKeepsInv(ms, Init(files), acts);
    PaidUp(ms, s, j);
  }

  lemma PaidUp(ms: seq<Pattern>, s: State, j: nat)
    requires Inv(ms, s) && Boundary(s) && j < |ms| && s.events == 0 && s.pending == 0
    ensures s.logs[j].out == Matches(ms[j], s.logs[j].file)
  {
    var log := s.logs[j];
    assert Paid(ms[j], log, s.due[j], s.events, s.pending);
    NoneLeft(ms[j], log);
  }

  lemma NoneLeft(m: Pattern, log: Log)
    requires Valid(m, log) && Unharvested(m, log) == 0
    ensures log.out == Matches(m, log.file)
  {
    MatchesJoin(m, log.file[..log.fpValid], log.file[log.fpValid..]);
    assert log.file == log.file[..log.fpValid] + log.file[log.fpValid..];
  }

  // ---------------------------------------------------------------- where events come from

  // Events added along a run.
  function Added(ms: seq<Pattern>, s: State, acts: seq<Action>): nat
    requires |ms| == |s.logs| && CanRun(ms, s, acts)
    decreases acts
  {
    if acts == [] then 0
    else
      (match acts[0]
       case Notify => 1
       case Post => 1
       case Call(f, lines) => Serve(ms[f], s.logs[f], s.logs[f].file + lines).posted
       case _ => 0)
      + Added(ms, Apply(ms, s, acts[0]), acts[1..])
  }

  // Every event is a notification, a post of somebody else or one posted for a
  // back-logged line, and every round takes one.
  lemma {:induction false} EventsAreConserved(ms: seq<Pattern>, s: State, acts: seq<Action>)
    requires |ms| == |s.logs| && CanRun(ms, s, acts)
    ensures After(ms, s, acts).events + Takes(acts) == s.events + Added(ms, s, acts)
    decreases acts
  {
    if acts != [] {
      EventsAreConserved(ms, Apply(ms, s, acts[0]), acts[1..]);
    }
  }

  // At the start no round is under way, and there is one event if there is a
  // file; the events since then are accounted for.
  lemma EventsFromStart(ms: seq<Pattern>, files: seq<seq<Line>>, acts: seq<Action>, s: State)
    requires Reaches(ms, files, acts, s)
    ensures Boundary(Init(files)) && Init(files).pending == 0
    ensures s.events + Takes(acts) == (if files == [] then 0 else 1) + Added(ms, Init(files), acts)
  {
    EventsAreConserved(ms, Init(files), acts);
  }

  // Notifications of several changes are merged into one.
  lemma {:induction false} OnePending(ms: seq<Pattern>, s: State, acts: seq<Action>)
    requires |ms| == |s.logs| && CanRun(ms, s, acts) && s.pending <= 1
    ensures After(ms, s, acts).pending <= 1
    decreases acts
  {
    if acts != [] {
      OnePending(ms, Apply(ms, s, acts[0]), acts[1..]);
    }
  }

  // ---------------------------------------------------------------- the events run out

  // Nothing new happens outside; notifications still to come may arrive.
  predicate Quiet(a: Action) {
    a.Take? || a.Notify? || (a.Call? && a.lines == [])
  }

  predicate AllQuiet(acts: seq<Action>) {
    forall k :: 0 <= k < |acts| ==> Quiet(acts[k])
  }

  function Takes(acts: seq<Action>): nat {
    if acts == [] then 0 else (if acts[0].Take? then 1 else 0) + Takes(acts[1..])
  }

  function UnseenIn(ms: seq<Pattern>, logs: seq<Log>): int
    requires |ms| == |logs| && forall j :: 0 <= j < |logs| ==> logs[j].fpValid <= |logs[j].file|
  {
    if ms == [] then 0 else Unseen(ms[0], logs[0]) + UnseenIn(ms[1..], logs[1..])
  }

  ghost function Potential(ms: seq<Pattern>, s: State): int
    requires Inv(ms, s)
  {
    s.events + s.pending + UnseenIn(ms, s.logs)
  }

  lemma {:induction false} UnseenUpdate(ms: seq<Pattern>, logs: seq<Log>, f: nat, log: Log)
    requires |ms| == |logs| && f < |logs| && log.fpValid <= |log.file|
    requires forall j :: 0 <= j < |logs| ==> logs[j].fpValid <= |logs[j].file|
    ensures UnseenIn(ms, logs[f := log]) == UnseenIn(ms, logs) - Unseen(ms[f], logs[f]) + Unseen(ms[f], log)
  {
    if f == 0 {
      assert logs[0 := log][1..] == logs[1..];
    } else {
      UnseenUpdate(ms[1..], logs[1..], f - 1, log);
      assert logs[f := log][1..] == logs[1..][f - 1 := log];
    }
  }

  lemma {:induction false} UnseenPositive(ms: seq<Pattern>, logs: seq<Log>)
    requires |ms| == |logs|
    requires forall j :: 0 <= j < |logs| ==> logs[j].fpValid <= |logs[j].file| && Valid(ms[j], logs[j])
    ensures UnseenIn(ms, logs) >= 0
  {
    if ms != [] {
      SomeSeen(ms[0], logs[0]);
      UnseenPositive(ms[1..], logs[1..]);
    }
  }

  lemma QuietStep(ms: seq<Pattern>, s: State, a: Action)
    requires Inv(ms, s) && Enabled(s, a) && Quiet(a)
    ensures Inv(ms, Apply(ms, s, a))
    ensures Potential(ms, Apply(ms, s, a)) <= Potential(ms, s) - (if a.Take? then 1 else 0)
  {
    StepKeepsInv(ms, s, a);
    if a.Call? {
      var log := s.logs[a.f];
      assert Paid(ms[a.f], log, true, s.events, s.pending);
      assert log.file + a.lines == log.file;
      CallServes(ms[a.f], log, log.file);
      UnseenUpdate(ms, s.logs, a.f, Serve(ms[a.f], log, log.file).log);
    }
  }

  // Left alone the followers take at most this many rounds.
  lemma {:induction false} RoundsRunOut(ms: seq<Pattern>, s: State, acts: seq<Action>)
    requires Inv(ms, s) && CanRun(ms, s, acts) && AllQuiet(acts)
    ensures Takes(acts) <= Potential(ms, s)
    decreases acts
  {
    if acts == [] {
      UnseenPositive(ms, s.logs);
    } else {
      assert Quiet(acts[0]);
      QuietStep(ms, s, acts[0]);
      RoundsRunOut(ms, Apply(ms, s, acts[0]), acts[1..]);
    }
  }

  // The followers stop only when no event is left and none is to come.
  lemma StopsWithoutEvents(ms: seq<Pattern>, s: State)
    requires Inv(ms, s) && forall a :: Quiet(a) ==> !Enabled(s, a)
    ensures Boundary(s) && s.events == 0 && s.pending == 0
  {
    forall j | 0 <= j < |s.due|
      ensures !s.due[j]
    {
      assert Paid(ms[j], s.logs[j], s.due[j], s.events, s.pending);
      var a := Call(j, []);
      assert Quiet(a) && !Enabled(s, a);
    }
    assert Quiet(Take) && !Enabled(s, Take);
    assert Quiet(Notify) && !Enabled(s, Notify);
  }

  // ---------------------------------------------------------------- and everything is harvested

  function Dues(due: seq<bool>): (n: nat)
    ensures n <= |due|
  {
    if due == [] then 0 else Owed(due[0]) + Dues(due[1..])
  }

  lemma {:induction false} DuesUpdate(due: seq<bool>, f: nat)
    requires f < |due| && due[f]
    ensures Dues(due[f := false]) == Dues(due) - 1
  {
    if f == 0 {
      assert due[0 := false][1..] == due[1..];
    } else {
      DuesUpdate(due[1..], f - 1);
      assert due[f := false][1..] == due[1..][f - 1 := false];
    }
  }

  lemma Scaled(n: nat, x: int, y: int)
    requires x <= y
    ensures (n + 1) * x <= (n + 1) * y && (n + 1) * (x - 1) == (n + 1) * x - n - 1
  {
  }

  // A round costs a unit of x, which counts for more than n calls.
  lemma Fewer(n: nat, x: int, x': int, calls: nat, calls': nat, pending: nat, pending': nat)
    requires calls' <= n && pending' <= pending
    requires x' < x || (x' <= x && calls' == calls && pending' < pending) || (x' <= x && calls' < calls)
    ensures (n + 1) * x' + calls' + pending' < (n + 1) * x + calls + pending
  {
    Scaled(n, x', if x' < x then x - 1 else x);
    Scaled(n, x, x);
  }

  predicate SameFiles(a: State, b: State) {
    |a.logs| == |b.logs| && forall j :: 0 <= j < |a.logs| ==> a.logs[j].file == b.logs[j].file
  }

  // How many quiet steps there can still be.
  ghost function Steps(ms: seq<Pattern>, s: State): int
    requires Inv(ms, s)
  {
    (|ms| + 1) * Potential(ms, s) + Dues(s.due) + s.pending
  }

  lemma QuietKeepsFiles(ms: seq<Pattern>, s: State, a: Action)
    requires Inv(ms, s) && Enabled(s, a) && Quiet(a)
    ensures SameFiles(s, Apply(ms, s, a))
  {
    if a.Call? {
      var log := s.logs[a.f];
      assert Paid(ms[a.f], log, true, s.events, s.pending);
      assert log.file + a.lines == log.file;
      CallServes(ms[a.f], log, log.file);
    }
  }

  lemma QuietDues(ms: seq<Pattern>, s: State, a: Action)
    requires Inv(ms, s) && Enabled(s, a) && Quiet(a)
    ensures var t := Apply(ms, s, a);
            && Dues(t.due) <= |ms| && t.pending <= s.pending
            && (a.Notify? ==> Dues(t.due) == Dues(s.due) && t.pending < s.pending)
            && (a.Call? ==> Dues(t.due) < Dues(s.due))
  {
    if a.Call? {
      DuesUpdate(s.due, a.f);
    }
  }

  lemma QuietStepCounts(ms: seq<Pattern>, s: State, a: Action)
    requires Inv(ms, s) && Enabled(s, a) && Quiet(a)
    ensures Inv(ms, Apply(ms, s, a)) && Steps(ms, Apply(ms, s, a)) < Steps(ms, s)
  {
    var t := Apply(ms, s, a);
    QuietStep(ms, s, a);
    QuietDues(ms, s, a);
    Fewer(|ms|, Potential(ms, s), Potential(ms, t), Dues(s.due), Dues(t.due), s.pending, t.pending);
  }

  lemma {:induction false} QuietRunCounts(ms: seq<Pattern>, s: State, acts: seq<Action>)
    requires Inv(ms, s) && CanRun(ms, s, acts) && AllQuiet(acts)
    ensures Inv(ms, After(ms, s, acts)) && |acts| + Steps(ms, After(ms, s, acts)) <= Steps(ms, s)
    ensures SameFiles(s, After(ms, s, acts))
    decreases acts
  {
    if acts != [] {
      assert Quiet(acts[0]);
      QuietStepCounts(ms, s, acts[0]);
      QuietKeepsFiles(ms, s, acts[0]);
      QuietRunCounts(ms, Apply(ms, s, acts[0]), acts[1..]);
    }
  }

  lemma StepsPositive(ms: seq<Pattern>, s: State)
    requires Inv(ms, s)
    ensures Steps(ms, s) >= 0
  {
    forall j | 0 <= j < |ms|
      ensures Valid(ms[j], s.logs[j])
    {
      assert Paid(ms[j], s.logs[j], s.due[j], s.events, s.pending);
    }
    UnseenPositive(ms, s.logs);
    Scaled(|ms|, 0, Potential(ms, s));
  }

  // Left alone after any run the followers stop within a bounded number of
  // steps, and when no step is left every matching line has been harvested.
  lemma LeftAloneAllIsHarvested(ms: seq<Pattern>, files: seq<seq<Line>>, acts: seq<Action>, s: State,
                                quiet: seq<Action>)
    requires Reaches(ms, files, acts, s) && |s.logs| == |ms| && CanRun(ms, s, quiet) && AllQuiet(quiet)
    ensures Inv(ms, s) && |quiet| <= Steps(ms, s)
    ensures var t := After(ms, s, quiet);
            (forall a :: Quiet(a) ==> !Enabled(t, a)) ==>
              |t.logs| == |ms| && forall j :: 0 <= j < |ms| ==> t.logs[j].out == Matches(ms[j], s.logs[j].file)
  {
    InitInv(ms, files);
    RunKeepsInv(ms, Init(files), acts);
    QuietRunCounts(ms, s, quiet);
    var t := After(ms, s, quiet);
    StepsPositive(ms, t);
    if forall a :: Quiet(a) ==> !Enabled(t, a) {
      StopsWithoutEvents(ms, t);
      forall j | 0 <= j < |ms|
        ensures t.logs[j].out == Matches(ms[j], s.logs[j].file)
      {
        PaidUp(ms, t, j);
      }
    }
  }
}
