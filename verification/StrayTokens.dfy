// What happens when a dying worker has not yet taken its barrier-2 token at
// the moment the master posts barrier 1: a live worker can take that token
// instead and report twice in one round.
module StrayTokens {
  import opened LockStep

  // The run posts barrier 1 for one round at most: only its first action may
  // be the master's step out of Release(1, 0).
  predicate OneRound(s: State, acts: seq<Action>)
    requires CanRun(s, acts)
    decreases acts
  {
    acts == [] || WithinRound(Apply(s, acts[0]), acts[1..])
  }

  predicate WithinRound(s: State, acts: seq<Action>)
    requires CanRun(s, acts)
    decreases acts
  {
    acts == [] || ((acts[0] == Master ==> s.master != Release(1, 0)) && WithinRound(Apply(s, acts[0]), acts[1..]))
  }

  predicate HarvestSafe(s: State) {
    HarvestWindow(s.master) ==> forall i :: 0 <= i < |s.workers| ==> !Busy(s.workers[i].pc)
  }

  // Every schedule of the coming round keeps tasks out of the harvest.
  ghost predicate RoundSafe(s: State) {
    forall acts :: CanRun(s, acts) && OneRound(s, acts) ==> HarvestSafe(After(s, acts))
  }

  // ---------------------------------------------------------------- no stray token: safe

  lemma InvIsSafe(s: State)
    requires Inv(s)
    ensures HarvestSafe(s)
  {
    forall i | 0 <= i < |s.workers|
      ensures HarvestWindow(s.master) ==> !Busy(s.workers[i].pc)
    {
      BalancedPlaces(s, i);
    }
  }

  lemma {:induction false} WithinRoundIsSafe(s: State, acts: seq<Action>)
    requires Inv(s) && CanRun(s, acts) && WithinRound(s, acts)
    ensures HarvestSafe(After(s, acts))
    decreases acts
  {
    if acts == [] {
      InvIsSafe(s);
    } else {
      KeepsInv(s, acts[0]);
      WithinRoundIsSafe(Apply(s, acts[0]), acts[1..]);
    }
  }

  // ---------------------------------------------------------------- one live worker: safe

  function BusyCount(c: Tally): nat {
    c.prepare + c.task + c.send2 + c.count + c.sendDeath
  }

  // Workers not yet counted as dead.
  function Uncounted(c: Tally): nat {
    c.waitStart + c.send1 + c.wait1 + c.prepare + c.task + c.send2 + c.wait2 + c.count
  }

  // The one worker counted is on its way through the task, or it has reported,
  // and it may have reported check-point 1 again.
  predicate OneLap(l: Ledger) {
    var reported := l.queued + (if l.master.Collect? then l.master.received else 0);
    if BusyCount(l.at) + l.barrier1 > 0 then
      && BusyCount(l.at) + l.barrier1 == 1 && reported == 0
      && l.at.send1 == 0 && l.at.wait2 == 0 && l.at.wait1 == l.barrier1
    else
      reported == 1 + l.at.wait1
  }

  // At most one worker is counted, whatever tokens dying workers have left.
  predicate Lone(l: Ledger) {
    && 0 <= l.nworkers <= 1 && Progress(l.master) <= l.nworkers
    && l.at.waitStart == 0 && Uncounted(l.at) + l.ndied == l.nworkers
    && !l.master.Startup?
    && if Lapping(l) then OneLap(l) else Resting(l)
  }

  predicate Lapping(l: Ledger) {
    l.nworkers == 1 && Running(l.master) && l.master != Release(1, 0)
  }

  // Nobody is on its way through a task.
  predicate Resting(l: Ledger) {
    && BusyCount(l.at) == 0 && l.barrier1 == 0
    && (Gathering(l.master) || Running(l.master) || Regrouping(l.master))
    && (!Regrouping(l.master) ==> l.ndied == 0)
    && l.queued + (if l.master.Collect? then l.master.received else 0)
       == (if l.master == Release(1, 0) then 0 else l.at.wait1)
    && (l.master == Release(1, 0) ==> l.at.wait1 == l.nworkers)
  }

  lemma ReadyIsLone(s: State)
    requires Inv(s) && s.master == Release(1, 0) && s.nworkers <= 1
    ensures Lone(Books(s))
  {
  }

  lemma MasterEndsLap(l: Ledger, last: bool)
    requires Lone(l) && HasMail(l) && Lapping(l)
    ensures Lone(MasterBooks(l, last))
  {
  }

  lemma MasterKeepsResting(l: Ledger, last: bool)
    requires Lone(l) && HasMail(l) && !Lapping(l)
    ensures Lone(MasterBooks(l, last))
  {
  }

  lemma MasterKeepsLone(l: Ledger, last: bool)
    requires Lone(l) && HasMail(l)
    ensures Lone(MasterBooks(l, last))
  {
    if Lapping(l) {
      MasterEndsLap(l, last);
    } else {
      MasterKeepsResting(l, last);
    }
  }

  lemma WorkerKeepsLap(l: Ledger, pre: Pc, post: Pc, m: Ledger)
    requires Lone(l) && Lapping(l) && Moves(l, pre, post, m)
    ensures OneLap(m)
  {
  }

  lemma WorkerKeepsResting(l: Ledger, pre: Pc, post: Pc, m: Ledger)
    requires Lone(l) && !Lapping(l) && Moves(l, pre, post, m)
    ensures Resting(m)
  {
  }

  lemma WorkerKeepsCount(l: Ledger, pre: Pc, post: Pc, m: Ledger)
    requires Moves(l, pre, post, m) && l.at.waitStart == 0
    ensures m.at.waitStart == 0 && Uncounted(m.at) + m.ndied == Uncounted(l.at) + l.ndied
  {
  }

  lemma WorkerKeepsLone(l: Ledger, pre: Pc, post: Pc, m: Ledger)
    requires Lone(l) && Moves(l, pre, post, m)
    ensures Lone(m)
  {
    WorkerKeepsCount(l, pre, post, m);
    if Lapping(l) {
      WorkerKeepsLap(l, pre, post, m);
    } else {
      WorkerKeepsResting(l, pre, post, m);
    }
  }

  lemma LoneIsIdle(l: Ledger, pc: Pc)
    requires Lone(l) && HarvestWindow(l.master) && Of(l.at, pc) > 0
    ensures !Busy(pc)
  {
  }

  lemma LoneIsSafe(s: State)
    requires Lone(Books(s))
    ensures HarvestSafe(s)
  {
    var l := Books(s);
    forall i | 0 <= i < |s.workers|
      ensures HarvestWindow(s.master) ==> !Busy(s.workers[i].pc)
    {
      OneIsThere(s, i);
      if HarvestWindow(s.master) {
        LoneIsIdle(l, s.workers[i].pc);
      }
    }
  }

  lemma StepKeepsLone(s: State, a: Action)
    requires Lone(Books(s)) && Enabled(s, a)
    ensures Lone(Books(Apply(s, a)))
  {
    match a {
      case Master =>
        MasterStepBooks(s);
        MasterKeepsLone(Books(s), !Printing(s));
      case PostEvent =>
      case _ =>
        WorkerStepBooks(s, a);
        WorkerKeepsLone(Books(s), s.workers[a.w].pc, Apply(s, a).workers[a.w].pc, Books(Apply(s, a)));
    }
  }

  // ---------------------------------------------------------------- whole runs

  // When the master posts barrier 1 no dying worker waits for its token, or at
  // most one worker is left.
  predicate Patient(s: State, a: Action) {
    Prompt(s, a) || s.nworkers <= 1
  }

  predicate PatientRun(s: State, acts: seq<Action>)
    requires CanRun(s, acts)
    decreases acts
  {
    acts == [] || (Patient(s, acts[0]) && PatientRun(Apply(s, acts[0]), acts[1..]))
  }

  lemma StepKeepsEither(s: State, a: Action)
    requires Inv(s) || Lone(Books(s))
    requires Enabled(s, a) && Patient(s, a)
    ensures Inv(Apply(s, a)) || Lone(Books(Apply(s, a)))
  {
    if Lone(Books(s)) {
      StepKeepsLone(s, a);
    } else if Prompt(s, a) {
      KeepsInv(s, a);
    } else {
      ReadyIsLone(s);
      assert false;
    }
  }

  lemma {:induction false} RunKeepsEither(s: State, acts: seq<Action>)
    requires Inv(s) || Lone(Books(s))
    requires CanRun(s, acts) && PatientRun(s, acts)
    ensures Inv(After(s, acts)) || Lone(Books(After(s, acts)))
    decreases acts
  {
    if acts != [] {
      StepKeepsEither(s, acts[0]);
      RunKeepsEither(Apply(s, acts[0]), acts[1..]);
    }
  }

  // In every run that is patient at each post of barrier 1, however many rounds
  // and deaths it has, no task runs during a harvest.
  lemma PatientRunsAreSafe(n: nat, acts: seq<Action>)
    requires CanRun(Init(n), acts) && PatientRun(Init(n), acts)
    ensures HarvestSafe(After(Init(n), acts))
  {
    InitInv(n);
    RunKeepsEither(Init(n), acts);
    var s := After(Init(n), acts);
    if Inv(s) {
      InvIsSafe(s);
    } else {
      LoneIsSafe(s);
    }
  }

  lemma LoneCounts(l: Ledger)
    requires Lone(l) && l.master.WaitEvent?
    ensures l.nworkers == LiveOnes(l.at) && l.ndied == 0
  {
  }

  lemma LoneIsCounted(s: State)
    requires Lone(Books(s)) && s.master.WaitEvent?
    ensures s.nworkers == Alive(s.workers) && s.ndied == 0
  {
    var l := Books(s);
    LoneCounts(l);
    LiveOnesAlive(s);
  }

  // In such a run the worker count is right whenever the master waits for an
  // event, and no death is left to be counted.
  lemma PatientRunsCount(n: nat, acts: seq<Action>)
    requires CanRun(Init(n), acts) && PatientRun(Init(n), acts) && After(Init(n), acts).master.WaitEvent?
    ensures var s := After(Init(n), acts); s.nworkers == Alive(s.workers) && s.ndied == 0
  {
    InitInv(n);
    RunKeepsEither(Init(n), acts);
    var s := After(Init(n), acts);
    if Inv(s) {
      InvIsCounted(s);
    } else {
      LoneIsCounted(s);
    }
  }

  lemma {:induction false} LoneRunIsSafe(s: State, acts: seq<Action>)
    requires Lone(Books(s)) && CanRun(s, acts)
    ensures HarvestSafe(After(s, acts))
    decreases acts
  {
    if acts == [] {
      LoneIsSafe(s);
    } else {
      StepKeepsLone(s, acts[0]);
      LoneRunIsSafe(Apply(s, acts[0]), acts[1..]);
    }
  }

  // ---------------------------------------------------------------- stray token and two live workers: unsafe

  predicate Leads(s: State, acts: seq<Action>, t: State) {
    CanRun(s, acts) && WithinRound(s, acts) && After(s, acts) == t
  }

  lemma {:induction false} Chain(s: State, acts: seq<Action>, t: State, more: seq<Action>, u: State)
    requires Leads(s, acts, t) && Leads(t, more, u)
    ensures Leads(s, acts + more, u)
    decreases acts
  {
    if acts == [] {
      assert acts + more == more;
    } else {
      Chain(Apply(s, acts[0]), acts[1..], t, more, u);
      assert (acts + more)[1..] == acts[1..] + more;
    }
  }

  lemma Then(s: State, acts: seq<Action>, t: State, a: Action) returns (more: seq<Action>, u: State)
    requires Leads(s, acts, t) && Enabled(t, a) && (a == Master ==> t.master != Release(1, 0))
    ensures u == Apply(t, a) && Leads(s, more, u)
  {
    u := Apply(t, a);
    assert CanRun(u, []) && WithinRound(u, []);
    assert Leads(t, [a], u);
    Chain(s, acts, t, [a], u);
    more := acts + [a];
  }

  // The master, released tokens k of this step, posts the others.
  lemma {:induction false} PostAll(s: State) returns (acts: seq<Action>, t: State)
    requires s.master.Release? && s.master != Release(1, 0) && 0 <= s.master.posted <= s.nworkers
    ensures Leads(s, acts, t)
    ensures t == (if s.master.step == 1 then
                    s.(barrier1 := s.barrier1 + s.nworkers - s.master.posted, master := Collect(2, 0))
                  else
                    s.(barrier2 := s.barrier2 + s.nworkers - s.master.posted, master := Settle))
    decreases s.nworkers - s.master.posted
  {
    acts, t := Then(s, [], s, Master);
    if s.master.posted < s.nworkers {
      var more, u := PostAll(t);
      Chain(s, acts, t, more, u);
      acts, t := acts + more, u;
    }
  }

  // The master takes out as many messages as it counts workers.
  lemma {:induction false} CollectAll(s: State) returns (acts: seq<Action>, t: State)
    requires s.master.Collect? && 0 <= s.master.received <= s.nworkers
    requires |s.queue| == s.nworkers - s.master.received
    ensures Leads(s, acts, t)
    ensures t == s.(queue := [], master := Release(s.master.step, 0), rounds := if s.master.step == 1 then s.rounds else s.rounds + 1)
    decreases |s.queue|
  {
    acts, t := Then(s, [], s, Master);
    if s.queue != [] {
      var more, u := CollectAll(t);
      Chain(s, acts, t, more, u);
      acts, t := acts + more, u;
    }
  }

  // A worker goes from barrier 1 through its task to barrier 2.
  lemma Lap(s: State, i: nat) returns (acts: seq<Action>, t: State)
    requires i < |s.workers| && s.workers[i].pc == Wait1 && s.barrier1 > 0 && |s.queue| < s.capacity
    ensures Leads(s, acts, t)
    ensures var w := s.workers[i];
            t == s.(workers := s.workers[i := Worker(Wait2, w.val, w.val, false, w.history + [Miss])],
                    barrier1 := s.barrier1 - 1, queue := s.queue + [Message(2, i)])
  {
    acts, t := Then(s, [], s, Work(i));
    acts, t := Then(s, acts, t, Work(i));
    acts, t := Then(s, acts, t, Finish(i, Miss));
    acts, t := Then(s, acts, t, Work(i));
  }

  // While worker b is in its task, all the others finish theirs.
  predicate Overtaking(s: State, b: nat, done: nat) {
    && s.master == Collect(2, 0) && 2 <= s.nworkers < s.capacity
    && b < |s.workers| && s.workers[b].pc == Task
    && s.barrier2 > 0
    && s.barrier1 == At(s.workers, Wait1)
    && |s.queue| + At(s.workers, Wait1) == s.nworkers - 1
    && (forall i :: 0 <= i < done && i < |s.workers| ==> s.workers[i].pc != Wait1)
  }

  lemma {:induction false} OthersFinish(s: State, b: nat, done: nat) returns (acts: seq<Action>, t: State)
    requires Overtaking(s, b, done) && done <= |s.workers|
    ensures Leads(s, acts, t) && Overtaking(t, b, |s.workers|) && |t.workers| == |s.workers|
    ensures forall i :: 0 <= i < |s.workers| && s.workers[i].pc in {Wait1, Wait2} ==> t.workers[i].pc == Wait2
    decreases |s.workers| - done
  {
    if done == |s.workers| {
      acts, t := [], s;
    } else if s.workers[done].pc == Wait1 {
      AtMove(s.workers, done, s.workers[done], Wait1);
      acts, t := Lap(s, done);
      AtMove(s.workers, done, t.workers[done], Wait1);
      var more, u := OthersFinish(t, b, done + 1);
      Chain(s, acts, t, more, u);
      acts, t := acts + more, u;
    } else {
      acts, t := OthersFinish(s, b, done + 1);
    }
  }

  lemma {:induction false} NoneAt(ws: seq<Worker>, pc: Pc)
    requires forall i :: 0 <= i < |ws| ==> ws[i].pc != pc
    ensures At(ws, pc) == 0
  {
    if ws != [] {
      NoneAt(ws[1..], pc);
    }
  }

  // One that has finished takes the stray token and reports again; the master
  // then counts enough messages to harvest although b is still in its task.
  lemma StealAndHarvest(s: State, a: nat, b: nat) returns (acts: seq<Action>, t: State)
    requires Overtaking(s, b, |s.workers|) && a < |s.workers| && s.workers[a].pc == Wait2
    ensures Leads(s, acts, t)
    ensures t.master == Harvest([]) && |t.workers| == |s.workers| && t.workers[b].pc == Task
  {
    NoneAt(s.workers, Wait1);
    acts, t := Then(s, [], s, Work(a));
    acts, t := Then(s, acts, t, Work(a));
    var more, u := CollectAll(t);
    Chain(s, acts, t, more, u);
    acts, t := acts + more, u;
    more, u := PostAll(t);
    Chain(s, acts, t, more, u);
    acts, t := Then(s, acts + more, u, Master);
  }

  lemma TwoWaiting(ws: seq<Worker>) returns (a: nat, b: nat)
    requires At(ws, Wait1) >= 2
    ensures a < |ws| && b < |ws| && a != b && ws[a].pc == ws[b].pc == Wait1
  {
    a := AtWitness(ws, Wait1);
    var without := ws[a := ws[a].(pc := Dead)];
    AtMove(ws, a, without[a], Wait1);
    b := AtWitness(without, Wait1);
  }

  // Worker b enters its task as soon as the tokens are out.
  lemma LeaderEnters(s: State, b: nat) returns (acts: seq<Action>, t: State)
    requires s.master == Release(1, 1) && s.barrier1 == 1 && s.queue == [] && s.barrier2 > 0
    requires At(s.workers, Wait1) == s.nworkers && 2 <= s.nworkers < s.capacity
    requires b < |s.workers| && s.workers[b].pc == Wait1
    ensures Leads(s, acts, t) && Overtaking(t, b, 0) && |t.workers| == |s.workers|
    ensures forall i :: 0 <= i < |s.workers| && i != b ==> t.workers[i] == s.workers[i]
  {
    acts, t := PostAll(s);
    acts, t := Then(s, acts, t, Work(b));
    acts, t := Then(s, acts, t, Work(b));
    AtMove(s.workers, b, t.workers[b], Wait1);
    assert t.workers == s.workers[b := t.workers[b]];
  }

  // A schedule that harvests while a worker is in its task.
  lemma BreakingSchedule(s: State) returns (acts: seq<Action>)
    requires Inv(s) && s.master == Release(1, 0)
    requires At(s.workers, WaitDeath) > 0 && s.nworkers >= 2
    ensures CanRun(s, acts) && OneRound(s, acts) && !HarvestSafe(After(s, acts))
  {
    var t := Apply(s, Master);
    var a, b := TwoWaiting(s.workers);
    var acts1, t1 := LeaderEnters(t, b);
    var acts2, t2 := OthersFinish(t1, b, 0);
    Chain(t, acts1, t1, acts2, t2);
    var acts3, t3 := StealAndHarvest(t2, a, b);
    Chain(t, acts1 + acts2, t2, acts3, t3);
    var rest := acts1 + acts2 + acts3;
    acts := [Master] + rest;
    assert acts[1..] == rest;
    assert Busy(t3.workers[b].pc);
  }

  // When the master is about to post barrier 1, every schedule of the coming
  // round keeps tasks out of the harvest if and only if no dying worker still
  // waits for its token, or at most one worker is left.
  lemma StrayTokenCondition(s: State)
    requires Inv(s) && s.master == Release(1, 0)
    ensures RoundSafe(s) <==> At(s.workers, WaitDeath) == 0 || s.nworkers <= 1
  {
    if At(s.workers, WaitDeath) == 0 || s.nworkers <= 1 {
      forall acts | CanRun(s, acts) && OneRound(s, acts)
        ensures HarvestSafe(After(s, acts))
      {
        RoundIsSafe(s, acts);
      }
    } else {
      var acts := BreakingSchedule(s);
    }
  }

  lemma RoundIsSafe(s: State, acts: seq<Action>)
    requires Inv(s) && s.master == Release(1, 0)
    requires At(s.workers, WaitDeath) == 0 || s.nworkers <= 1
    requires CanRun(s, acts) && OneRound(s, acts)
    ensures HarvestSafe(After(s, acts))
  {
    if acts == [] {
      InvIsSafe(s);
    } else if acts[0] != Master || Prompt(s, Master) {
      KeepsInv(s, acts[0]);
      WithinRoundIsSafe(Apply(s, acts[0]), acts[1..]);
    } else {
      ReadyIsLone(s);
      LoneRunIsSafe(s, acts);
    }
  }

  // Wherever a patient run comes to post barrier 1, it goes on safely in every
  // schedule of the round exactly if it is patient there too.
  lemma PatienceIsExact(n: nat, before: seq<Action>, s: State)
    requires CanRun(Init(n), before) && PatientRun(Init(n), before) && s == After(Init(n), before)
    requires s.master == Release(1, 0)
    ensures RoundSafe(s) <==> Patient(s, Master)
  {
    InitInv(n);
    RunKeepsEither(Init(n), before);
    if Inv(s) {
      StrayTokenCondition(s);
    } else {
      forall acts | CanRun(s, acts) && OneRound(s, acts)
        ensures HarvestSafe(After(s, acts))
      {
        LoneRunIsSafe(s, acts);
      }
    }
  }

  // ---------------------------------------------------------------- the condition can be missed

  lemma {:induction false} Append(s: State, acts: seq<Action>, more: seq<Action>)
    requires CanRun(s, acts) && CanRun(After(s, acts), more)
    ensures CanRun(s, acts + more) && After(s, acts + more) == After(After(s, acts), more)
    ensures PromptRun(s, acts) && PromptRun(After(s, acts), more) ==> PromptRun(s, acts + more)
    decreases acts
  {
    if acts == [] {
      assert acts + more == more;
    } else {
      Append(Apply(s, acts[0]), acts[1..], more);
      assert (acts + more)[1..] == acts[1..] + more;
    }
  }

  lemma {:induction false} WithinRoundIsPrompt(s: State, acts: seq<Action>)
    requires CanRun(s, acts) && WithinRound(s, acts)
    ensures PromptRun(s, acts)
    decreases acts
  {
    if acts != [] {
      WithinRoundIsPrompt(Apply(s, acts[0]), acts[1..]);
    }
  }

  lemma Extend(n: nat, acts: seq<Action>, s: State, more: seq<Action>, t: State)
    requires Reaches(n, acts, s) && Leads(s, more, t)
    ensures Reaches(n, acts + more, t)
  {
    WithinRoundIsPrompt(s, more);
    Append(Init(n), acts, more);
  }

  // A worker at barrier 2 takes a token and reports check-point 1.
  lemma Arrive(s: State, acts: seq<Action>, u: State, i: nat) returns (more: seq<Action>, t: State)
    requires Leads(s, acts, u)
    requires i < |u.workers| && u.workers[i].pc in {WaitStart, Wait2} && u.barrier2 > 0 && |u.queue| < u.capacity
    ensures Leads(s, more, t)
    ensures t == u.(workers := u.workers[i := u.workers[i].(pc := Wait1)],
                    barrier2 := u.barrier2 - 1, queue := u.queue + [Message(1, i)])
  {
    more, t := Then(s, acts, u, Work(i));
    more, t := Then(s, more, t, Work(i));
  }

  // A worker dies in its task; it stops short of taking its token.
  lemma DieSlowly(s: State, i: nat) returns (acts: seq<Action>, t: State)
    requires i < |s.workers| && s.workers[i].pc == Wait1 && s.barrier1 > 0 && |s.queue| < s.capacity
    ensures Leads(s, acts, t)
    ensures t == s.(workers := s.workers[i := Worker(WaitDeath, "", s.workers[i].val, false, s.workers[i].history)],
                    barrier1 := s.barrier1 - 1, queue := s.queue + [Message(3, i)], ndied := s.ndied + 1)
  {
    acts, t := Then(s, [], s, Work(i));
    acts, t := Then(s, acts, t, Work(i));
    acts, t := Then(s, acts, t, Die(i));
    acts, t := Then(s, acts, t, Work(i));
    acts, t := Then(s, acts, t, Work(i));
  }

  const FRESH := Worker(Wait1, INITIAL_VALUE, "", false, [])
  const REPORTED := Worker(Wait2, INITIAL_VALUE, INITIAL_VALUE, false, [Miss])
  const DYING := Worker(WaitDeath, "", INITIAL_VALUE, false, [])

  // Three workers start up and report; the master takes its first event.
  lemma FirstGather() returns (acts: seq<Action>, t: State)
    ensures Reaches(3, acts, t)
    ensures t == State(Release(1, 0), [FRESH, FRESH, FRESH], [], 4, 0, 0, 0, 3, 0, 0, [])
  {
    var s := Init(3);
    acts, t := Then(s, [], s, Master);
    acts, t := Then(s, acts, t, Master);
    acts, t := Then(s, acts, t, Master);
    acts, t := Then(s, acts, t, Master);
    acts, t := Arrive(s, acts, t, 0);
    acts, t := Arrive(s, acts, t, 1);
    acts, t := Arrive(s, acts, t, 2);
    acts, t := Then(s, acts, t, PostEvent);
    acts, t := Then(s, acts, t, Master);
    var more, u := CollectAll(t);
    Chain(s, acts, t, more, u);
    assert u.workers == [FRESH, FRESH, FRESH];
    assert Reaches(3, [], s);
    acts, t := acts + more, u;
    Extend(3, [], s, acts, t);
    assert [] + acts == acts;
  }

  // Two of them finish their task; the third dies in it.
  lemma FirstTask(s: State) returns (acts: seq<Action>, t: State)
    requires s == State(Release(1, 1), [FRESH, FRESH, FRESH], [], 4, 1, 0, 0, 3, 0, 0, [])
    ensures Leads(s, acts, t)
    ensures t == State(Collect(2, 0), [REPORTED, REPORTED, DYING], [Message(2, 0), Message(2, 1), Message(3, 2)],
                       4, 0, 0, 0, 3, 1, 0, [])
  {
    acts, t := PostAll(s);
    var more, u := Lap(t, 0);
    Chain(s, acts, t, more, u);
    acts, t := acts + more, u;
    more, u := Lap(t, 1);
    Chain(s, acts, t, more, u);
    acts, t := acts + more, u;
    more, u := DieSlowly(t, 2);
    Chain(s, acts, t, more, u);
    acts, t := acts + more, u;
    assert FRESH.history + [Miss] == [Miss];
    assert t.workers == [REPORTED, REPORTED, DYING];
  }

  // The master counts them all and goes on to the harvest.
  lemma FirstRelease(s: State) returns (acts: seq<Action>, t: State)
    requires s.master == Collect(2, 0) && |s.queue| == s.nworkers == 3 && s.ndied == 1
    ensures Leads(s, acts, t)
    ensures t == s.(queue := [], rounds := s.rounds + 1, barrier2 := s.barrier2 + 3, nworkers := 2, ndied := 0,
                    master := Harvest([]))
  {
    acts, t := CollectAll(s);
    var more, u := PostAll(t);
    Chain(s, acts, t, more, u);
    acts, t := Then(s, acts + more, u, Master);
  }

  lemma FirstDeath() returns (acts: seq<Action>, t: State)
    ensures Reaches(3, acts, t)
    ensures t == State(Harvest([]), [REPORTED, REPORTED, DYING], [], 4, 0, 3, 0, 2, 0, 1, [])
  {
    var before, s := FirstGather();
    NoneAt(s.workers, WaitDeath);
    assert CanRun(s, [Master]) && PromptRun(s, [Master]);
    Append(Init(3), before, [Master]);
    before, s := before + [Master], Apply(s, Master);
    acts, t := FirstTask(s);
    var more, u := FirstRelease(t);
    Chain(s, acts, t, more, u);
    Extend(3, before, s, acts + more, u);
    acts, t := before + (acts + more), u;
  }

  // The master comes round to barrier 1 with the dying worker's token still out.
  lemma StrayTokenHappens() returns (acts: seq<Action>, t: State)
    ensures Reaches(3, acts, t) && Inv(t)
    ensures t.master == Release(1, 0) && t.nworkers == 2 && At(t.workers, WaitDeath) > 0
  {
    var before, s := FirstDeath();
    acts, t := Then(s, [], s, Master);
    acts, t := Then(s, acts, t, Master);
    acts, t := Then(s, acts, t, Master);
    acts, t := Then(s, acts, t, Master);
    assert t.workers == [REPORTED, REPORTED, DYING];
    acts, t := Arrive(s, acts, t, 0);
    acts, t := Arrive(s, acts, t, 1);
    acts, t := Then(s, acts, t, PostEvent);
    acts, t := Then(s, acts, t, Master);
    var more, u := CollectAll(t);
    Chain(s, acts, t, more, u);
    acts, t := acts + more, u;
    Extend(3, before, s, acts, t);
    acts := before + acts;
    assert t.workers[2].pc == WaitDeath;
    AtMove(t.workers, 2, t.workers[2], WaitDeath);
    ReachesInv(3, acts, t);
  }

  // Hence, without the condition on dying workers, the master can harvest
  // while a worker is in its task.
  lemma HarvestCanCatchTask() returns (acts: seq<Action>)
    ensures CanRun(Init(3), acts) && !HarvestSafe(After(Init(3), acts))
  {
    var first, mid := StrayTokenHappens();
    var rest := BreakingSchedule(mid);
    Append(Init(3), first, rest);
    acts := first + rest;
  }
}
