// The lock-step protocol between the master thread and the worker threads:
// one message queue, two counting semaphores and a semaphore of pending
// events.  Every thread is a program counter; one action is one atomic step
// of one thread, so a run is a sequence of actions in any order.
module LockStep {

  // What a worker task reports: return code 0 with a value read, or failure.
  datatype Outcome = Read(value: string) | Miss

  // Count, SendDeath, WaitDeath and Dead belong to the exit handler.
  datatype Pc =
    | WaitStart | Send1 | Wait1 | Prepare | Task | Send2 | Wait2
    | Count | SendDeath | WaitDeath | Dead

  // `history` records the outcomes of the worker's tasks, in order.
  datatype Worker = Worker(pc: Pc, val: string, last: string, updated: bool, history: seq<Outcome>)

  datatype Message = Message(checkPoint: nat, from: nat)

  // Collect(step, k): k messages of this step received.  Release(step, k): k
  // tokens of this step posted.  Harvest(cells): the cells printed so far.
  datatype MasterPc =
    | Startup(posted: nat)
    | WaitEvent
    | Collect(step: nat, received: nat)
    | Release(step: nat, posted: nat)
    | Settle
    | Harvest(cells: seq<string>)

  datatype State = State(
    master: MasterPc,
    workers: seq<Worker>,
    queue: seq<Message>,
    capacity: nat,
    barrier1: nat,
    barrier2: nat,
    events: nat,
    nworkers: int,
    ndied: nat,
    rounds: nat,
    samples: seq<seq<string>>)

  datatype Action =
    | Master
    | PostEvent
    | Work(w: nat)
    | Finish(w: nat, outcome: Outcome)
    | Die(w: nat)

  const INITIAL_VALUE := "0"

  function Init(n: nat): State {
    State(Startup(0), seq(n, i => Worker(WaitStart, INITIAL_VALUE, "", false, [])),
          [], n + 1, 0, 0, 0, n, 0, 0, [])
  }

  // ---------------------------------------------------------------- steps

  predicate MasterEnabled(s: State) {
    match s.master
    case WaitEvent => s.events > 0
    case Collect(_, k) => k < s.nworkers ==> |s.queue| > 0
    case _ => true
  }

  predicate WorkerEnabled(s: State, w: nat)
    requires w < |s.workers|
  {
    match s.workers[w].pc
    case WaitStart => s.barrier2 > 0
    case Wait2 => s.barrier2 > 0
    case WaitDeath => s.barrier2 > 0
    case Wait1 => s.barrier1 > 0
    case Send1 => |s.queue| < s.capacity
    case Send2 => |s.queue| < s.capacity
    case SendDeath => |s.queue| < s.capacity
    case Prepare => true
    case Count => true
    case Task => false
    case Dead => false
  }

  predicate Enabled(s: State, a: Action) {
    match a
    case Master => MasterEnabled(s)
    case PostEvent => true
    case Work(w) => w < |s.workers| && WorkerEnabled(s, w)
    case Finish(w, _) => w < |s.workers| && s.workers[w].pc == Task
    case Die(w) => w < |s.workers| && s.workers[w].pc == Task
  }

  function MasterStep(s: State): State
    requires MasterEnabled(s)
  {
    match s.master
    case Startup(k) =>
      if k < s.nworkers then s.(barrier2 := s.barrier2 + 1, master := Startup(k + 1))
      else s.(master := WaitEvent)
    case WaitEvent => s.(events := s.events - 1, master := Collect(1, 0))
    case Collect(step, k) =>
      if k < s.nworkers then s.(queue := s.queue[1..], master := Collect(step, k + 1))
      else s.(master := Release(step, 0), rounds := if step == 1 then s.rounds else s.rounds + 1)
    case Release(step, k) =>
      if k < s.nworkers then
        if step == 1 then s.(barrier1 := s.barrier1 + 1, master := Release(1, k + 1))
        else s.(barrier2 := s.barrier2 + 1, master := Release(step, k + 1))
      else if step == 1 then s.(master := Collect(2, 0))
      else s.(master := Settle)
    case Settle => s.(nworkers := s.nworkers - s.ndied, ndied := 0, master := Harvest([]))
    case Harvest(cells) =>
      if |cells| < |s.workers| then
        // An updated value and a last-value repeat both print `val`.
        var w := s.workers[|cells|];
        s.(workers := s.workers[|cells| := w.(updated := false)], master := Harvest(cells + [w.val]))
      else
        s.(samples := s.samples + [cells], master := WaitEvent)
  }

  function SetPc(s: State, w: nat, pc: Pc): State
    requires w < |s.workers|
  {
    s.(workers := s.workers[w := s.workers[w].(pc := pc)])
  }

  function Send(s: State, w: nat, checkPoint: nat): State {
    s.(queue := s.queue + [Message(checkPoint, w)])
  }

  function WorkerStep(s: State, w: nat): State
    requires w < |s.workers| && WorkerEnabled(s, w)
  {
    match s.workers[w].pc
    case WaitStart => SetPc(s, w, Send1).(barrier2 := s.barrier2 - 1)
    case Send1 => Send(SetPc(s, w, Wait1), w, 1)
    case Wait1 => SetPc(s, w, Prepare).(barrier1 := s.barrier1 - 1)
    case Prepare =>
      var me := s.workers[w];
      s.(workers := s.workers[w := me.(pc := Task, last := me.val, val := "", updated := false)])
    case Send2 => Send(SetPc(s, w, Wait2), w, 2)
    case Wait2 => SetPc(s, w, Send1).(barrier2 := s.barrier2 - 1)
    case Count => SetPc(s, w, SendDeath).(ndied := s.ndied + 1)
    case SendDeath => Send(SetPc(s, w, WaitDeath), w, 3)
    case WaitDeath => SetPc(s, w, Dead).(barrier2 := s.barrier2 - 1)
  }

  function Complete(me: Worker, outcome: Outcome): Worker {
    match outcome
    case Read(v) => me.(pc := Send2, val := v, updated := true, history := me.history + [outcome])
    case Miss => me.(pc := Send2, val := me.last, history := me.history + [outcome])
  }

  function Apply(s: State, a: Action): (t: State)
    requires Enabled(s, a)
    ensures |t.workers| == |s.workers| && t.capacity == s.capacity
  {
    match a
    case Master => MasterStep(s)
    case PostEvent => s.(events := s.events + 1)
    case Work(w) => WorkerStep(s, w)
    case Finish(w, outcome) => s.(workers := s.workers[w := Complete(s.workers[w], outcome)])
    case Die(w) => SetPc(s, w, Count)
  }

  // ---------------------------------------------------------------- runs

  predicate CanRun(s: State, acts: seq<Action>)
    decreases acts
  {
    acts == [] || (Enabled(s, acts[0]) && CanRun(Apply(s, acts[0]), acts[1..]))
  }

  function After(s: State, acts: seq<Action>): State
    requires CanRun(s, acts)
    decreases acts
  {
    if acts == [] then s else After(Apply(s, acts[0]), acts[1..])
  }

  // How many workers stand at a program counter.
  function At(ws: seq<Worker>, pc: Pc): nat {
    if ws == [] then 0 else (if ws[0].pc == pc then 1 else 0) + At(ws[1..], pc)
  }

  // A dying worker has taken its barrier-2 token before the master next posts
  // barrier 1.
  predicate Prompt(s: State, a: Action) {
    a.Master? && s.master == Release(1, 0) && s.nworkers > 0 ==> At(s.workers, WaitDeath) == 0
  }

  predicate PromptRun(s: State, acts: seq<Action>)
    requires CanRun(s, acts)
    decreases acts
  {
    acts == [] || (Prompt(s, acts[0]) && PromptRun(Apply(s, acts[0]), acts[1..]))
  }

  predicate Live(pc: Pc) {
    pc in {WaitStart, Send1, Wait1, Prepare, Task, Send2, Wait2}
  }

  // The value a last-value signal stands for after these task outcomes.
  function LastGood(history: seq<Outcome>): string {
    if history == [] then INITIAL_VALUE
    else match history[|history| - 1]
      case Read(v) => v
      case Miss => LastGood(history[..|history| - 1])
  }

  // ---------------------------------------------------------------- counting

  // The counts at all program counters.
  datatype Tally = Tally(
    waitStart: nat, send1: nat, wait1: nat, prepare: nat, task: nat, send2: nat,
    wait2: nat, count: nat, sendDeath: nat, waitDeath: nat, dead: nat)

  function Census(ws: seq<Worker>): Tally {
    Tally(At(ws, WaitStart), At(ws, Send1), At(ws, Wait1), At(ws, Prepare), At(ws, Task), At(ws, Send2),
          At(ws, Wait2), At(ws, Count), At(ws, SendDeath), At(ws, WaitDeath), At(ws, Dead))
  }

  function Sum(c: Tally): nat {
    c.waitStart + c.send1 + c.wait1 + c.prepare + c.task + c.send2 + c.wait2
    + c.count + c.sendDeath + c.waitDeath + c.dead
  }

  function Of(c: Tally, pc: Pc): nat {
    match pc
    case WaitStart => c.waitStart
    case Send1 => c.send1
    case Wait1 => c.wait1
    case Prepare => c.prepare
    case Task => c.task
    case Send2 => c.send2
    case Wait2 => c.wait2
    case Count => c.count
    case SendDeath => c.sendDeath
    case WaitDeath => c.waitDeath
    case Dead => c.dead
  }

  function Is(a: Pc, b: Pc): nat {
    if a == b then 1 else 0
  }

  // One worker has moved from `pre` to `post`.
  predicate Moved(c: Tally, pre: Pc, post: Pc, d: Tally) {
    && Of(c, pre) > 0
    && d.waitStart == c.waitStart - Is(pre, WaitStart) + Is(post, WaitStart)
    && d.send1 == c.send1 - Is(pre, Send1) + Is(post, Send1)
    && d.wait1 == c.wait1 - Is(pre, Wait1) + Is(post, Wait1)
    && d.prepare == c.prepare - Is(pre, Prepare) + Is(post, Prepare)
    && d.task == c.task - Is(pre, Task) + Is(post, Task)
    && d.send2 == c.send2 - Is(pre, Send2) + Is(post, Send2)
    && d.wait2 == c.wait2 - Is(pre, Wait2) + Is(post, Wait2)
    && d.count == c.count - Is(pre, Count) + Is(post, Count)
    && d.sendDeath == c.sendDeath - Is(pre, SendDeath) + Is(post, SendDeath)
    && d.waitDeath == c.waitDeath - Is(pre, WaitDeath) + Is(post, WaitDeath)
    && d.dead == c.dead - Is(pre, Dead) + Is(post, Dead)
  }

  lemma {:induction false} AtMove(ws: seq<Worker>, i: nat, w: Worker, pc: Pc)
    requires i < |ws|
    ensures At(ws[i := w], pc) == At(ws, pc) - Is(ws[i].pc, pc) + Is(w.pc, pc)
    ensures ws[i].pc == pc ==> At(ws, pc) > 0
  {
    if i == 0 {
      assert ws[0 := w][1..] == ws[1..];
    } else {
      AtMove(ws[1..], i - 1, w, pc);
      assert ws[i := w][1..] == ws[1..][i - 1 := w];
    }
  }

  lemma CensusMove(ws: seq<Worker>, i: nat, w: Worker)
    requires i < |ws|
    ensures Moved(Census(ws), ws[i].pc, w.pc, Census(ws[i := w]))
  {
    forall pc
      ensures At(ws[i := w], pc) == At(ws, pc) - Is(ws[i].pc, pc) + Is(w.pc, pc)
      ensures ws[i].pc == pc ==> At(ws, pc) > 0
    {
      AtMove(ws, i, w, pc);
    }
    assert Of(Census(ws), ws[i].pc) == At(ws, ws[i].pc);
  }

  lemma {:induction false} CensusTotal(ws: seq<Worker>)
    ensures Sum(Census(ws)) == |ws|
  {
    if ws != [] {
      CensusTotal(ws[1..]);
    }
  }

  lemma {:induction false} AtWitness(ws: seq<Worker>, pc: Pc) returns (i: nat)
    requires At(ws, pc) > 0
    ensures i < |ws| && ws[i].pc == pc
  {
    if ws[0].pc == pc {
      i := 0;
    } else {
      var j := AtWitness(ws[1..], pc);
      i := j + 1;
    }
  }

  lemma {:induction false} CensusInit(n: nat)
    ensures Census(Init(n).workers) == Tally(n, 0, 0, 0, 0, 0, 0, 0, 0, 0, 0)
  {
    if n > 0 {
      CensusInit(n - 1);
      assert Init(n).workers[1..] == Init(n - 1).workers;
    }
  }

  // ---------------------------------------------------------------- the invariant

  predicate Gathering(m: MasterPc) {
    m.Startup? || m.WaitEvent? || m.Harvest? || (m.Collect? && m.step == 1)
  }

  predicate Running(m: MasterPc) {
    (m.Release? && m.step == 1) || (m.Collect? && m.step == 2)
  }

  predicate Regrouping(m: MasterPc) {
    (m.Release? && m.step == 2) || m.Settle?
  }

  // The counts of a state: workers, messages and tokens.
  datatype Ledger = Ledger(
    at: Tally, total: nat, master: MasterPc, queued: nat, barrier1: nat, barrier2: nat, nworkers: int, ndied: nat)

  function Books(s: State): Ledger {
    Ledger(Census(s.workers), |s.workers|, Plain(s.master), |s.queue|, s.barrier1, s.barrier2, s.nworkers, s.ndied)
  }

  function Plain(m: MasterPc): MasterPc {
    if m.Harvest? then Harvest([]) else m
  }

  // Messages received or tokens posted so far in the current master loop.
  function Progress(m: MasterPc): nat {
    match m
    case Startup(k) => k
    case Collect(_, k) => k
    case Release(_, k) => k
    case _ => 0
  }

  // Nobody has been let into a task.
  predicate Idle(c: Tally) {
    c.prepare == 0 && c.task == 0 && c.send2 == 0 && c.count == 0 && c.sendDeath == 0
  }

  // From the end of one round to the moment every live worker has reported
  // check-point 1: the tokens of barrier 2 are exactly those still owed.
  predicate GatherShape(l: Ledger) {
    && Idle(l.at)
    && l.barrier1 == 0 && l.ndied == 0
    && l.nworkers == l.total - l.at.waitDeath - l.at.dead
    && (if l.master.Startup? then
          && l.at.wait2 == 0 && l.at.waitDeath == 0 && l.at.dead == 0
          && l.barrier2 + (l.total - l.at.waitStart) == l.master.posted
        else
          l.barrier2 == l.at.waitStart + l.at.wait2 + l.at.waitDeath)
    && l.queued + (if l.master.Collect? then l.master.received else 0) == l.at.wait1
  }

  // Every live worker has reported check-point 1; no token is out.
  predicate ReadyShape(l: Ledger) {
    && Idle(l.at)
    && l.at.waitStart == 0 && l.at.send1 == 0 && l.at.wait2 == 0
    && l.barrier1 == 0 && l.ndied == 0 && l.queued == 0
    && l.at.wait1 == l.nworkers == l.total - l.at.waitDeath - l.at.dead
    && l.barrier2 == l.at.waitDeath
  }

  // From the first barrier-1 token to the last check-point 2 report.
  predicate RunShape(l: Ledger) {
    && l.at.waitStart == 0 && l.at.send1 == 0
    && l.barrier2 == 0
    && l.nworkers == l.total - l.at.dead
    && l.ndied == l.at.sendDeath + l.at.waitDeath
    && l.queued + (if l.master.Collect? then l.master.received else 0) == l.at.wait2 + l.at.waitDeath
    && l.barrier1 + (l.nworkers - l.at.wait1) == (if l.master.Release? then l.master.posted else l.nworkers)
  }

  // From the last check-point 2 report to the harvest.
  predicate RegroupShape(l: Ledger) {
    && Idle(l.at)
    && l.at.waitStart == 0
    && l.barrier1 == 0
    && l.barrier2 + (l.nworkers - l.at.wait2 - l.at.waitDeath) == (if l.master.Release? then l.master.posted else l.nworkers)
    && l.ndied == l.at.waitDeath + l.at.dead - (l.total - l.nworkers)
    && l.total - l.nworkers <= l.at.dead
    && l.queued == l.at.wait1
  }

  // Every worker is dead or about to be: the master goes round alone.
  predicate Extinct(l: Ledger) {
    && l.total == l.at.waitDeath + l.at.dead
    && l.barrier1 == 0 && l.ndied == 0 && l.queued == 0
    && l.barrier2 == l.at.waitDeath
  }

  predicate Balanced(l: Ledger) {
    && Sum(l.at) == l.total
    && 0 <= l.nworkers <= l.total
    && Progress(l.master) <= l.nworkers
    && (Gathering(l.master) || Running(l.master) || Regrouping(l.master))
    && if l.nworkers == 0 then Extinct(l)
       else if Gathering(l.master) then GatherShape(l)
       else if l.master == Release(1, 0) then ReadyShape(l)
       else if Running(l.master) then RunShape(l)
       else RegroupShape(l)
  }

  // The check-point and the program counter of the sender of a queued message.
  predicate Reported(s: State, m: Message) {
    && m.from < |s.workers|
    && if Running(s.master) then
         || (m.checkPoint == 2 && s.workers[m.from].pc == Wait2)
         || (m.checkPoint == 3 && s.workers[m.from].pc == WaitDeath)
       else
         m.checkPoint == 1 && s.workers[m.from].pc == Wait1
  }

  predicate Mail(s: State) {
    && (forall k :: 0 <= k < |s.queue| ==> Reported(s, s.queue[k]))
    && (forall j, k :: 0 <= j < k < |s.queue| ==> s.queue[j].from != s.queue[k].from)
  }

  // Each live worker has run its task once a round and holds, or during its
  // task has put aside, the last value read; a worker that dies in its task
  // leaves no value.
  predicate Keeps(s: State, w: Worker) {
    if Live(w.pc) then
      && |w.history| == s.rounds + (if Running(s.master) && (w.pc == Send2 || w.pc == Wait2) then 1 else 0)
      && (if w.pc == Task then w.last else w.val) == LastGood(w.history)
      && (w.pc == Task ==> w.val == "")
    else
      |w.history| <= |s.samples| && w.val == ""
  }

  // What the k-th sample shows of a worker with this history.
  function Shown(history: seq<Outcome>, k: nat): string {
    if k < |history| then LastGood(history[..k + 1]) else ""
  }

  predicate Sampled(s: State, i: nat)
    requires i < |s.workers|
  {
    && (forall k :: 0 <= k < |s.samples| ==>
          i < |s.samples[k]| && s.samples[k][i] == Shown(s.workers[i].history, k))
    && (s.master.Harvest? && i < |s.master.cells| ==> s.master.cells[i] == Shown(s.workers[i].history, |s.samples|))
  }

  // The outcome of this round's task is known and not printed yet.
  predicate Fresh(s: State, i: nat, pc: Pc) {
    || (Running(s.master) && (pc == Send2 || pc == Wait2))
    || Regrouping(s.master)
    || (s.master.Harvest? && |s.master.cells| <= i)
  }

  // A worker is marked as updated exactly from a task that has read a value
  // until its cell is printed.
  predicate Marked(s: State, i: nat)
    requires i < |s.workers|
  {
    var w := s.workers[i];
    w.updated <==> Live(w.pc) && Fresh(s, i, w.pc) && w.history != [] && w.history[|w.history| - 1].Read?
  }

  predicate Keeping(s: State, i: nat)
    requires i < |s.workers|
  {
    Keeps(s, s.workers[i]) && Sampled(s, i) && Marked(s, i)
  }

  predicate Tallied(s: State) {
    && |s.samples| + (if Regrouping(s.master) || s.master.Harvest? then 1 else 0) == s.rounds
    && (s.master.Harvest? ==> |s.master.cells| <= |s.workers|)
    && (forall k :: 0 <= k < |s.samples| ==> |s.samples[k]| == |s.workers|)
  }

  predicate Values(s: State) {
    && Tallied(s)
    && (forall i :: 0 <= i < |s.workers| ==> Keeping(s, i))
  }

  predicate Inv(s: State) {
    s.capacity == |s.workers| + 1 && Balanced(Books(s)) && Mail(s) && Values(s)
  }

  lemma InitBalanced(n: nat)
    ensures Balanced(Books(Init(n)))
  {
    CensusInit(n);
  }

  lemma InitValues(n: nat)
    ensures Init(n).capacity == |Init(n).workers| + 1 && Mail(Init(n)) && Values(Init(n))
  {
  }

  lemma InitInv(n: nat)
    ensures Inv(Init(n))
  {
    InitBalanced(n);
    InitValues(n);
  }

  // ---------------------------------------------------------------- preservation of the counts

  predicate LedgerPrompt(l: Ledger) {
    l.master == Release(1, 0) && l.nworkers > 0 ==> l.at.waitDeath == 0
  }

  predicate HasMail(l: Ledger) {
    l.master.Collect? && l.master.received < l.nworkers ==> l.queued > 0
  }

  // The counts after a step of the master; `last` tells that the last cell of
  // a harvest has been printed.
  function MasterBooks(l: Ledger, last: bool): Ledger
    requires HasMail(l)
  {
    match l.master
    case Startup(k) =>
      if k < l.nworkers then l.(barrier2 := l.barrier2 + 1, master := Startup(k + 1)) else l.(master := WaitEvent)
    case WaitEvent => l.(master := Collect(1, 0))
    case Collect(step, k) =>
      if k < l.nworkers then l.(queued := l.queued - 1, master := Collect(step, k + 1))
      else l.(master := Release(step, 0))
    case Release(step, k) =>
      if k < l.nworkers then
        if step == 1 then l.(barrier1 := l.barrier1 + 1, master := Release(1, k + 1))
        else l.(barrier2 := l.barrier2 + 1, master := Release(step, k + 1))
      else if step == 1 then l.(master := Collect(2, 0))
      else l.(master := Settle)
    case Settle => l.(nworkers := l.nworkers - l.ndied, ndied := 0, master := Harvest([]))
    case Harvest(_) => if last then l.(master := WaitEvent) else l
  }

  lemma MasterGathers(l: Ledger, last: bool)
    requires Balanced(l) && LedgerPrompt(l) && Gathering(l.master) && l.nworkers > 0
    requires HasMail(l)
    ensures Balanced(MasterBooks(l, last))
  {
  }

  lemma MasterReady(l: Ledger, last: bool)
    requires Balanced(l) && LedgerPrompt(l) && l.master == Release(1, 0) && l.nworkers > 0
    requires HasMail(l)
    ensures Balanced(MasterBooks(l, last))
  {
  }

  lemma MasterRuns(l: Ledger, last: bool)
    requires Balanced(l) && LedgerPrompt(l) && Running(l.master) && l.master != Release(1, 0) && l.nworkers > 0
    requires HasMail(l)
    ensures Balanced(MasterBooks(l, last))
  {
  }

  lemma MasterRegroups(l: Ledger, last: bool)
    requires Balanced(l) && LedgerPrompt(l) && Regrouping(l.master) && l.nworkers > 0
    requires HasMail(l)
    ensures Balanced(MasterBooks(l, last))
  {
  }

  lemma MasterAlone(l: Ledger, last: bool)
    requires Balanced(l) && LedgerPrompt(l) && l.nworkers == 0
    requires HasMail(l)
    ensures Balanced(MasterBooks(l, last))
  {
  }

  // The order of the program counters.
  predicate Follows(pre: Pc, post: Pc) {
    match pre
    case WaitStart => post == Send1
    case Send1 => post == Wait1
    case Wait1 => post == Prepare
    case Prepare => post == Task
    case Task => post == Send2 || post == Count
    case Send2 => post == Wait2
    case Wait2 => post == Send1
    case Count => post == SendDeath
    case SendDeath => post == WaitDeath
    case WaitDeath => post == Dead
    case Dead => false
  }

  // The move a worker makes, with the tokens it takes and the message it sends.
  predicate Moves(l: Ledger, pre: Pc, post: Pc, m: Ledger) {
    && Moved(l.at, pre, post, m.at)
    && m.total == l.total && m.master == l.master && m.nworkers == l.nworkers
    && m.queued == l.queued + (if pre == Send1 || pre == Send2 || pre == SendDeath then 1 else 0)
    && m.barrier1 == l.barrier1 - (if pre == Wait1 then 1 else 0)
    && m.barrier2 == l.barrier2 - (if pre == WaitStart || pre == Wait2 || pre == WaitDeath then 1 else 0)
    && m.ndied == l.ndied + (if pre == Count then 1 else 0)
    && Follows(pre, post)
  }

  lemma MoveKeepsSum(l: Ledger, pre: Pc, post: Pc, m: Ledger)
    requires Moves(l, pre, post, m)
    ensures Sum(m.at) == Sum(l.at)
  {
  }

  lemma MoveKeepsGather(l: Ledger, pre: Pc, post: Pc, m: Ledger)
    requires Moves(l, pre, post, m) && GatherShape(l) && Sum(l.at) == l.total
    ensures GatherShape(m)
  {
  }

  lemma MoveKeepsReady(l: Ledger, pre: Pc, post: Pc, m: Ledger)
    requires Moves(l, pre, post, m) && ReadyShape(l) && Sum(l.at) == l.total
    ensures ReadyShape(m)
  {
  }

  lemma MoveKeepsRun(l: Ledger, pre: Pc, post: Pc, m: Ledger)
    requires Moves(l, pre, post, m) && RunShape(l) && Sum(l.at) == l.total
    ensures RunShape(m)
  {
  }

  lemma MoveKeepsRegroup(l: Ledger, pre: Pc, post: Pc, m: Ledger)
    requires Moves(l, pre, post, m) && RegroupShape(l) && Sum(l.at) == l.total
    ensures RegroupShape(m)
  {
  }

  lemma MoveKeepsExtinct(l: Ledger, pre: Pc, post: Pc, m: Ledger)
    requires Moves(l, pre, post, m) && Extinct(l) && Sum(l.at) == l.total
    ensures Extinct(m)
  {
  }

  lemma MasterKeepsLedger(l: Ledger, last: bool)
    requires Balanced(l) && LedgerPrompt(l) && HasMail(l)
    ensures Balanced(MasterBooks(l, last))
  {
    if l.nworkers == 0 {
      MasterAlone(l, last);
    } else if Gathering(l.master) {
      MasterGathers(l, last);
    } else if l.master == Release(1, 0) {
      MasterReady(l, last);
    } else if Running(l.master) {
      MasterRuns(l, last);
    } else {
      MasterRegroups(l, last);
    }
  }

  lemma WorkerKeepsLedger(l: Ledger, pre: Pc, post: Pc, m: Ledger)
    requires Balanced(l) && Moves(l, pre, post, m)
    ensures Balanced(m)
  {
    MoveKeepsSum(l, pre, post, m);
    if l.nworkers == 0 {
      MoveKeepsExtinct(l, pre, post, m);
    } else if Gathering(l.master) {
      MoveKeepsGather(l, pre, post, m);
    } else if l.master == Release(1, 0) {
      MoveKeepsReady(l, pre, post, m);
    } else if Running(l.master) {
      MoveKeepsRun(l, pre, post, m);
    } else {
      MoveKeepsRegroup(l, pre, post, m);
    }
  }

  // Another cell is to be printed.
  predicate Printing(s: State) {
    s.master.Harvest? && |s.master.cells| < |s.workers|
  }

  lemma MoveToSame(c: Tally, pc: Pc, d: Tally)
    requires Moved(c, pc, pc, d)
    ensures c == d
  {
  }

  lemma PrintingKeepsBooks(s: State)
    requires Printing(s)
    ensures Books(MasterStep(s)) == Books(s)
  {
    var i := |s.master.cells|;
    var w := s.workers[i];
    CensusMove(s.workers, i, w.(updated := false));
    MoveToSame(Census(s.workers), w.pc, Census(s.workers[i := w.(updated := false)]));
  }

  lemma CountingStepBooks(s: State)
    requires MasterEnabled(s) && !Printing(s)
    ensures HasMail(Books(s)) && Books(MasterStep(s)) == MasterBooks(Books(s), true)
  {
    assert MasterStep(s).workers == s.workers;
  }

  lemma MasterStepBooks(s: State)
    requires MasterEnabled(s)
    ensures HasMail(Books(s)) && Books(MasterStep(s)) == MasterBooks(Books(s), !Printing(s))
  {
    if Printing(s) {
      PrintingKeepsBooks(s);
    } else {
      CountingStepBooks(s);
    }
  }

  lemma WorkerFollows(s: State, a: Action)
    requires Enabled(s, a) && (a.Work? || a.Finish? || a.Die?)
    ensures Follows(s.workers[a.w].pc, Apply(s, a).workers[a.w].pc)
    ensures Apply(s, a).workers == s.workers[a.w := Apply(s, a).workers[a.w]]
    ensures Apply(s, a).master == s.master && Apply(s, a).nworkers == s.nworkers
  {
  }

  // The tokens a worker takes and the message it sends.
  lemma WorkerTokens(s: State, a: Action)
    requires Enabled(s, a) && (a.Work? || a.Finish? || a.Die?)
    ensures var t, pre := Apply(s, a), s.workers[a.w].pc;
            && |t.queue| == |s.queue| + (if pre == Send1 || pre == Send2 || pre == SendDeath then 1 else 0)
            && t.barrier1 == s.barrier1 - (if pre == Wait1 then 1 else 0)
            && t.barrier2 == s.barrier2 - (if pre == WaitStart || pre == Wait2 || pre == WaitDeath then 1 else 0)
            && t.ndied == s.ndied + (if pre == Count then 1 else 0)
  {
  }

  lemma WorkerStepBooks(s: State, a: Action)
    requires Enabled(s, a) && (a.Work? || a.Finish? || a.Die?)
    ensures Moves(Books(s), s.workers[a.w].pc, Apply(s, a).workers[a.w].pc, Books(Apply(s, a)))
  {
    WorkerFollows(s, a);
    WorkerTokens(s, a);
    CensusMove(s.workers, a.w, Apply(s, a).workers[a.w]);
  }

  lemma KeepsBooks(s: State, a: Action)
    requires Balanced(Books(s)) && Enabled(s, a) && Prompt(s, a)
    ensures Balanced(Books(Apply(s, a)))
  {
    match a
    case Master =>
      MasterStepBooks(s);
      MasterKeepsLedger(Books(s), !Printing(s));
    case PostEvent =>
    case _ =>
      WorkerStepBooks(s, a);
      WorkerKeepsLedger(Books(s), s.workers[a.w].pc, Apply(s, a).workers[a.w].pc, Books(Apply(s, a)));
  }

  // ---------------------------------------------------------------- preservation of the queue

  // What the counts say about one worker, and about the queue and the tokens.
  predicate Placed(s: State, pc: Pc) {
    Stands(s, pc) && Emptied(s, pc)
  }

  predicate Stands(s: State, pc: Pc) {
    && (Gathering(s.master) || Running(s.master) || Regrouping(s.master))
    && (pc in {Prepare, Task, Send2, Count, SendDeath} ==> Running(s.master) && s.master != Release(1, 0))
    && (pc in {WaitStart, Send1} ==> !Running(s.master))
    && (pc == Wait2 ==> s.master != Release(1, 0))
    && (Live(pc) ==> s.nworkers > 0)
  }

  predicate Emptied(s: State, pc: Pc) {
    && (!Running(s.master) ==> s.barrier1 == 0)
    && (Running(s.master) && s.master != Release(1, 0) && s.nworkers > 0 ==> s.barrier2 == 0)
    && (Running(s.master) && s.nworkers <= 0 ==> s.queue == [])
    && (s.master == Release(1, 0) ==> s.queue == [])
    && (s.master.Collect? && s.master.received >= s.nworkers ==> s.queue == [])
    && (s.master.Collect? && s.master.step == 1 && s.master.received >= s.nworkers && Live(pc) ==> pc == Wait1)
    && (s.master.Collect? && s.master.step == 2 && s.master.received >= s.nworkers && Live(pc) ==> pc == Wait2)
  }

  lemma OneIsThere(s: State, i: nat)
    requires i < |s.workers|
    ensures Of(Books(s).at, s.workers[i].pc) > 0
  {
    AtMove(s.workers, i, s.workers[i], s.workers[i].pc);
  }

  lemma BalancedStands(s: State, pc: Pc)
    requires Balanced(Books(s)) && Of(Books(s).at, pc) > 0
    ensures Stands(s, pc)
  {
  }

  lemma BalancedEmpties(s: State, pc: Pc)
    requires Balanced(Books(s)) && Of(Books(s).at, pc) > 0
    ensures Emptied(s, pc)
  {
  }

  lemma BalancedPlaces(s: State, i: nat)
    requires Balanced(Books(s)) && i < |s.workers|
    ensures Placed(s, s.workers[i].pc)
  {
    OneIsThere(s, i);
    BalancedStands(s, s.workers[i].pc);
    BalancedEmpties(s, s.workers[i].pc);
  }

  predicate Drained(s: State) {
    && (s.master.Collect? && s.master.received >= s.nworkers ==> s.queue == [])
    && (s.master == Release(1, 0) ==> s.queue == [])
  }

  lemma BalancedDrains(s: State)
    requires Balanced(Books(s))
    ensures Drained(s)
  {
  }

  lemma MasterKeepsMail(s: State)
    requires Drained(s) && Mail(s) && MasterEnabled(s)
    ensures Mail(MasterStep(s))
  {
  }

  lemma WorkerKeepsMail(s: State, a: Action)
    requires Mail(s) && Enabled(s, a) && (a.Work? || a.Finish? || a.Die?)
    requires Placed(s, s.workers[a.w].pc)
    ensures Mail(Apply(s, a))
  {
    var t := Apply(s, a);
    forall k | 0 <= k < |s.queue|
      ensures s.queue[k].from != a.w && Reported(t, s.queue[k])
    {
      assert Reported(s, s.queue[k]);
    }
  }

  // ---------------------------------------------------------------- preservation of the values

  lemma PrintKeepsValue(s: State, i: nat)
    requires i < |s.workers| && Printing(s) && Tallied(s) && Keeping(s, i)
    requires Placed(s, s.workers[i].pc)
    ensures Keeping(MasterStep(s), i)
  {
    var w := s.workers[i];
    assert w.history[..|w.history|] == w.history;
  }

  lemma HarvestKeepsValue(s: State, i: nat)
    requires i < |s.workers| && s.master.Harvest? && !Printing(s) && Tallied(s) && Keeping(s, i)
    requires Placed(s, s.workers[i].pc)
    ensures Keeping(MasterStep(s), i)
  {
  }

  lemma MasterKeepsValue(s: State, i: nat)
    requires i < |s.workers| && MasterEnabled(s) && !s.master.Harvest? && Tallied(s) && Keeping(s, i)
    requires Placed(s, s.workers[i].pc)
    ensures Keeping(MasterStep(s), i)
  {
  }

  lemma PrefixStays(h: seq<Outcome>, o: Outcome, k: nat)
    requires k < |h|
    ensures (h + [o])[..k + 1] == h[..k + 1]
  {
  }

  lemma FinishKeepsValue(s: State, i: nat, o: Outcome)
    requires Enabled(s, Finish(i, o))
    requires Tallied(s) && Keeping(s, i) && Placed(s, s.workers[i].pc)
    ensures Keeping(Apply(s, Finish(i, o)), i)
  {
    var w, v := s.workers[i], Apply(s, Finish(i, o)).workers[i];
    assert v.history[..|v.history| - 1] == w.history;
    forall k | 0 <= k < |s.samples|
      ensures s.samples[k][i] == Shown(v.history, k)
    {
      PrefixStays(w.history, o, k);
    }
  }

  lemma WorkKeepsValue(s: State, i: nat)
    requires Enabled(s, Work(i)) && Keeping(s, i) && Placed(s, s.workers[i].pc)
    ensures Keeping(Apply(s, Work(i)), i)
  {
    var w, v := s.workers[i], Apply(s, Work(i)).workers[i];
    assert v.history == w.history && (Live(v.pc) ==> Live(w.pc));
  }

  lemma DieKeepsValue(s: State, i: nat)
    requires Enabled(s, Die(i)) && Tallied(s) && Keeping(s, i) && Placed(s, Task)
    ensures Keeping(Apply(s, Die(i)), i)
  {
  }

  lemma OtherKeepsValue(s: State, a: Action, i: nat)
    requires i < |s.workers| && Enabled(s, a) && (a.Work? || a.Finish? || a.Die?) && a.w != i
    requires Keeping(s, i)
    ensures Keeping(Apply(s, a), i)
  {
    assert Apply(s, a).workers[i] == s.workers[i];
  }

  lemma StepKeepsValue(s: State, a: Action, i: nat)
    requires i < |s.workers| && Enabled(s, a) && Tallied(s) && Keeping(s, i) && Placed(s, s.workers[i].pc)
    ensures Keeping(Apply(s, a), i)
  {
    match a
    case Master =>
      if Printing(s) {
        PrintKeepsValue(s, i);
      } else if s.master.Harvest? {
        HarvestKeepsValue(s, i);
      } else {
        MasterKeepsValue(s, i);
      }
    case PostEvent =>
    case Finish(w, o) => if w == i { FinishKeepsValue(s, i, o); } else { OtherKeepsValue(s, a, i); }
    case Work(w) => if w == i { WorkKeepsValue(s, i); } else { OtherKeepsValue(s, a, i); }
    case Die(w) => if w == i { DieKeepsValue(s, i); } else { OtherKeepsValue(s, a, i); }
  }

  lemma KeepsValues(s: State, a: Action)
    requires Balanced(Books(s)) && Values(s) && Enabled(s, a)
    ensures Values(Apply(s, a))
  {
    var t := Apply(s, a);
    forall i | 0 <= i < |t.workers|
      ensures Keeping(t, i)
    {
      assert Keeping(s, i);
      BalancedPlaces(s, i);
      StepKeepsValue(s, a, i);
    }
    QueueBounded(s);
    TalliedStep(s, a);
  }

  lemma TalliedStep(s: State, a: Action)
    requires Enabled(s, a) && Tallied(s) && (Gathering(s.master) || Running(s.master) || Regrouping(s.master))
    ensures Tallied(Apply(s, a))
  {
  }

  lemma KeepsMail(s: State, a: Action)
    requires Balanced(Books(s)) && Mail(s) && Enabled(s, a)
    ensures Mail(Apply(s, a))
  {
    match a
    case Master => BalancedDrains(s); MasterKeepsMail(s);
    case PostEvent =>
      forall k | 0 <= k < |s.queue| ensures Reported(Apply(s, a), s.queue[k]) { assert Reported(s, s.queue[k]); }
    case Work(w) => BalancedPlaces(s, w); WorkerKeepsMail(s, a);
    case Finish(w, _) => BalancedPlaces(s, w); WorkerKeepsMail(s, a);
    case Die(w) => BalancedPlaces(s, w); WorkerKeepsMail(s, a);
  }

  // Every step keeps the invariant, as long as dying workers are prompt.
  lemma KeepsInv(s: State, a: Action)
    requires Inv(s) && Enabled(s, a) && Prompt(s, a)
    ensures Inv(Apply(s, a))
  {
    KeepsBooks(s, a);
    KeepsMail(s, a);
    KeepsValues(s, a);
  }

  lemma {:induction false} RunKeepsInv(s: State, acts: seq<Action>)
    requires Inv(s) && CanRun(s, acts) && PromptRun(s, acts)
    ensures Inv(After(s, acts))
    decreases acts
  {
    if acts != [] {
      KeepsInv(s, acts[0]);
      RunKeepsInv(Apply(s, acts[0]), acts[1..]);
    }
  }

  // ---------------------------------------------------------------- safety

  // From the start of a harvest to the next post of barrier 1.
  predicate HarvestWindow(m: MasterPc) {
    m.Harvest? || m.WaitEvent? || (m.Collect? && m.step == 1) || m == Release(1, 0)
  }

  predicate Busy(pc: Pc) {
    pc in {Prepare, Task, Send2, Count, SendDeath}
  }

  predicate DeathFree(acts: seq<Action>) {
    forall a :: a in acts ==> !a.Die?
  }

  predicate NoneDying(s: State) {
    forall i :: 0 <= i < |s.workers| ==> Live(s.workers[i].pc)
  }

  lemma {:induction false} DeathFreeIsPrompt(s: State, acts: seq<Action>)
    requires NoneDying(s) && CanRun(s, acts) && DeathFree(acts)
    ensures PromptRun(s, acts) && NoneDying(After(s, acts))
    decreases acts
  {
    if acts != [] {
      if At(s.workers, WaitDeath) > 0 {
        var i := AtWitness(s.workers, WaitDeath);
        assert false;
      }
      assert acts[0] in acts;
      DeathFreeIsPrompt(Apply(s, acts[0]), acts[1..]);
    }
  }

  lemma {:induction false} RunKeepsSize(s: State, acts: seq<Action>)
    requires CanRun(s, acts)
    ensures |After(s, acts).workers| == |s.workers| && After(s, acts).capacity == s.capacity
    decreases acts
  {
    if acts != [] {
      RunKeepsSize(Apply(s, acts[0]), acts[1..]);
    }
  }

  // s is the state after a run of n workers in which dying workers are prompt.
  predicate Reaches(n: nat, acts: seq<Action>, s: State) {
    CanRun(Init(n), acts) && PromptRun(Init(n), acts) && s == After(Init(n), acts)
  }

  // s is the state after a run of n workers in which none dies.
  predicate ReachesFree(n: nat, acts: seq<Action>, s: State) {
    CanRun(Init(n), acts) && DeathFree(acts) && s == After(Init(n), acts)
  }

  lemma ReachesInv(n: nat, acts: seq<Action>, s: State)
    requires Reaches(n, acts, s)
    ensures Inv(s) && |s.workers| == n && s.capacity == n + 1
  {
    InitInv(n);
    RunKeepsInv(Init(n), acts);
    RunKeepsSize(Init(n), acts);
  }

  lemma FreeRunsArePrompt(n: nat, acts: seq<Action>, s: State)
    requires ReachesFree(n, acts, s)
    ensures Reaches(n, acts, s) && NoneDying(s)
  {
    DeathFreeIsPrompt(Init(n), acts);
  }

  // No worker is in its task between a harvest and the next release, in every
  // run with prompt deaths; in particular in every run without deaths.
  lemma NoTaskDuringHarvest(n: nat, acts: seq<Action>, s: State, i: nat)
    requires Reaches(n, acts, s) || ReachesFree(n, acts, s)
    requires i < |s.workers|
    ensures HarvestWindow(s.master) ==> !Busy(s.workers[i].pc)
  {
    if ReachesFree(n, acts, s) {
      FreeRunsArePrompt(n, acts, s);
    }
    ReachesInv(n, acts, s);
    BalancedPlaces(s, i);
  }

  // At each harvest every live worker has run its task exactly once for each
  // of the rounds made, and one sample is missing: the one being harvested.
  lemma TaskRunOncePerRound(n: nat, acts: seq<Action>, s: State, i: nat)
    requires Reaches(n, acts, s)
    requires s.master.Harvest? && i < |s.workers| && Live(s.workers[i].pc)
    ensures |s.workers[i].history| == s.rounds == |s.samples| + 1
  {
    ReachesInv(n, acts, s);
    assert Keeping(s, i);
  }

  // A cell is printed as updated exactly if the worker's task of this round has
  // read a value.
  lemma UpdatedIfRead(n: nat, acts: seq<Action>, s: State, i: nat)
    requires Reaches(n, acts, s)
    requires s.master.Harvest? && i == |s.master.cells| < |s.workers| && Live(s.workers[i].pc)
    ensures var w := s.workers[i];
            |w.history| == s.rounds > 0 && (w.updated <==> w.history[s.rounds - 1].Read?)
  {
    ReachesInv(n, acts, s);
    assert Keeping(s, i);
  }

  // The last value read is this, or none was read and this is "0".
  predicate LastRead(history: seq<Outcome>, text: string) {
    (text == "0" && AllMiss(history)) || exists j :: 0 <= j < |history| && ReadAt(history, j, text)
  }

  predicate AllMiss(outcomes: seq<Outcome>) {
    forall j :: 0 <= j < |outcomes| ==> outcomes[j].Miss?
  }

  predicate ReadAt(history: seq<Outcome>, j: nat, text: string)
    requires j < |history|
  {
    history[j] == Read(text) && AllMiss(history[j + 1..])
  }

  lemma MissKeepsLast(history: seq<Outcome>, text: string)
    requires LastRead(history, text)
    ensures LastRead(history + [Miss], text)
  {
    var more := history + [Miss];
    if j :| 0 <= j < |history| && ReadAt(history, j, text) {
      assert more[j + 1..] == history[j + 1..] + [Miss];
      assert ReadAt(more, j, text);
    }
  }

  lemma {:induction false} LastGoodIsLast(history: seq<Outcome>)
    ensures LastRead(history, LastGood(history))
  {
    if history != [] {
      var last := |history| - 1;
      if history[last].Miss? {
        LastGoodIsLast(history[..last]);
        MissKeepsLast(history[..last], LastGood(history));
        assert history[..last] + [Miss] == history;
      } else {
        assert ReadAt(history, last, LastGood(history));
      }
    }
  }

  // The value printed for a last-value signal in the k-th sample is the last
  // one read in the rounds up to that sample, or "0"; once its worker has died
  // nothing is printed for it.
  lemma SamplesAreLastValues(n: nat, acts: seq<Action>, s: State, k: nat, i: nat)
    requires Reaches(n, acts, s)
    requires k < |s.samples| && i < n
    ensures |s.workers| == |s.samples[k]| == n
    ensures s.samples[k][i]
         == if k < |s.workers[i].history| then LastGood(s.workers[i].history[..k + 1]) else ""
    ensures k < |s.workers[i].history| ==> LastRead(s.workers[i].history[..k + 1], s.samples[k][i])
    ensures Live(s.workers[i].pc) ==> k < |s.workers[i].history|
  {
    ReachesInv(n, acts, s);
    assert Keeping(s, i);
    if k < |s.workers[i].history| {
      LastGoodIsLast(s.workers[i].history[..k + 1]);
    }
  }

  // ---------------------------------------------------------------- the queue

  // The queue never fills and holds at most one message of each worker, so no
  // send into it ever blocks.
  lemma QueueNeverBlocks(n: nat, acts: seq<Action>, s: State, i: nat)
    requires Reaches(n, acts, s) && i < |s.workers|
    ensures |s.queue| <= n < s.capacity
    ensures forall j, k :: 0 <= j < k < |s.queue| ==> s.queue[j].from != s.queue[k].from
    ensures s.workers[i].pc in {Send1, Send2, SendDeath} ==> Enabled(s, Work(i))
  {
    ReachesInv(n, acts, s);
    QueueBounded(s);
  }

  // What the master takes out in step k reports check-point k; only a dying
  // worker's check-point 3 also counts, and only in step 2.
  lemma MessagesOnStep(n: nat, acts: seq<Action>, s: State)
    requires Reaches(n, acts, s)
    requires s.master.Collect? && s.queue != []
    ensures s.queue[0].checkPoint == s.master.step || (s.queue[0].checkPoint == 3 && s.master.step == 2)
    ensures DeathFree(acts) ==> s.queue[0].checkPoint == s.master.step
  {
    ReachesInv(n, acts, s);
    QueueBounded(s);
    assert Reported(s, s.queue[0]);
    if DeathFree(acts) {
      FreeRunsArePrompt(n, acts, s);
    }
  }

  lemma QueueBounded(s: State)
    requires Balanced(Books(s))
    ensures |s.queue| <= |s.workers|
    ensures Gathering(s.master) || Running(s.master) || Regrouping(s.master)
  {
  }

  // ---------------------------------------------------------------- one round for each event

  function Posts(acts: seq<Action>): nat {
    if acts == [] then 0 else (if acts[0] == PostEvent then 1 else 0) + Posts(acts[1..])
  }

  // The rounds sampled, and the one that is under way.
  function Begun(s: State): nat {
    |s.samples| + if InRound(s.master) || s.master.Harvest? then 1 else 0
  }

  lemma StepSpendsEvents(s: State, a: Action)
    requires Enabled(s, a)
    ensures Apply(s, a).events + Begun(Apply(s, a)) == s.events + Begun(s) + Posts([a])
  {
  }

  lemma {:induction false} RunSpendsEvents(s: State, acts: seq<Action>)
    requires CanRun(s, acts)
    ensures After(s, acts).events + Begun(After(s, acts)) == s.events + Begun(s) + Posts(acts)
    decreases acts
  {
    if acts != [] {
      StepSpendsEvents(s, acts[0]);
      RunSpendsEvents(Apply(s, acts[0]), acts[1..]);
    }
  }

  // In every run, whoever dies and however slowly, each event posted is still
  // pending or has begun one round: the rounds sampled and the one under way.
  lemma EventsMakeRounds(n: nat, acts: seq<Action>)
    requires CanRun(Init(n), acts)
    ensures var s := After(Init(n), acts);
            Posts(acts) == s.events + |s.samples|
                           + (if s.master.Collect? || s.master.Release? || s.master.Settle? || s.master.Harvest? then 1 else 0)
  {
    RunSpendsEvents(Init(n), acts);
  }

  // ---------------------------------------------------------------- deaths

  function Alive(ws: seq<Worker>): nat {
    if ws == [] then 0 else (if Live(ws[0].pc) then 1 else 0) + Alive(ws[1..])
  }

  // The workers not dead or dying.
  function LiveOnes(c: Tally): nat {
    c.waitStart + c.send1 + c.wait1 + c.prepare + c.task + c.send2 + c.wait2
  }

  lemma {:induction false} AliveCount(ws: seq<Worker>)
    ensures Alive(ws) == At(ws, WaitStart) + At(ws, Send1) + At(ws, Wait1) + At(ws, Prepare) + At(ws, Task)
                         + At(ws, Send2) + At(ws, Wait2)
  {
    if ws != [] {
      AliveCount(ws[1..]);
    }
  }

  lemma LiveOnesAlive(s: State)
    ensures Alive(s.workers) == LiveOnes(Books(s).at)
  {
    AliveCount(s.workers);
  }

  lemma BalancedCounts(l: Ledger)
    requires Balanced(l) && l.master.WaitEvent?
    ensures l.nworkers == LiveOnes(l.at) && l.ndied == 0
  {
  }

  lemma InvIsCounted(s: State)
    requires Inv(s) && s.master.WaitEvent?
    ensures s.nworkers == Alive(s.workers) && s.ndied == 0
  {
    var l := Books(s);
    BalancedCounts(l);
    LiveOnesAlive(s);
  }

  // With prompt deaths the master's worker count is right whenever it waits
  // for an event.
  lemma WorkersCounted(n: nat, acts: seq<Action>, s: State)
    requires Reaches(n, acts, s) && s.master.WaitEvent?
    ensures s.nworkers == Alive(s.workers) && s.ndied == 0
  {
    ReachesInv(n, acts, s);
    InvIsCounted(s);
  }

  // ---------------------------------------------------------------- progress

  predicate InRound(m: MasterPc) {
    m.Collect? || m.Release? || m.Settle?
  }

  // Steps a worker can still make before it stops at the next barrier 1.
  function Ahead(m: MasterPc, pc: Pc): nat {
    match pc
    case WaitDeath => 1
    case SendDeath => 2
    case Count => 3
    case Send2 => 3
    case Task => 4
    case Prepare => 5
    case Wait1 => if Regrouping(m) then 0 else 6
    case Wait2 => if Gathering(m) then 8 else 2
    case WaitStart => if Gathering(m) then 8 else 2
    case Send1 => if Gathering(m) then 7 else 1
    case Dead => 0
  }

  function AheadAll(m: MasterPc, ws: seq<Worker>): nat {
    if ws == [] then 0 else Ahead(m, ws[0].pc) + AheadAll(m, ws[1..])
  }

  function MasterAhead(m: MasterPc, n: nat): nat
    requires InRound(m) && Progress(m) <= n
  {
    match m
    case Collect(step, k) => (if step == 1 then 4 * n + 5 else 2 * n + 3) - k
    case Release(step, k) => (if step == 1 then 3 * n + 4 else n + 2) - k
    case _ => 1
  }

  function Measure(s: State): nat
    requires InRound(s.master) && 0 <= Progress(s.master) <= s.nworkers
  {
    MasterAhead(s.master, s.nworkers) + AheadAll(s.master, s.workers)
  }

  lemma {:induction false} AheadMove(m: MasterPc, ws: seq<Worker>, i: nat, w: Worker)
    requires i < |ws|
    ensures AheadAll(m, ws[i := w]) == AheadAll(m, ws) - Ahead(m, ws[i].pc) + Ahead(m, w.pc)
  {
    if i == 0 {
      assert ws[0 := w][1..] == ws[1..];
    } else {
      AheadMove(m, ws[1..], i - 1, w);
      assert ws[i := w][1..] == ws[1..][i - 1 := w];
    }
  }

  lemma {:induction false} AheadSame(m: MasterPc, m': MasterPc, ws: seq<Worker>)
    requires forall i :: 0 <= i < |ws| ==> Ahead(m, ws[i].pc) == Ahead(m', ws[i].pc)
    ensures AheadAll(m, ws) == AheadAll(m', ws)
  {
    if ws != [] {
      AheadSame(m, m', ws[1..]);
    }
  }

  lemma {:induction false} AheadBound(m: MasterPc, ws: seq<Worker>)
    ensures AheadAll(m, ws) <= 8 * |ws|
  {
    if ws != [] {
      AheadBound(m, ws[1..]);
    }
  }

  // Some thread can move whenever the master is in a round.
  lemma SomeStepEnabled(s: State) returns (a: Action)
    requires Inv(s) && InRound(s.master)
    ensures a != PostEvent && Enabled(s, a) && Prompt(s, a)
  {
    if s.master == Release(1, 0) && At(s.workers, WaitDeath) > 0 {
      var i := AtWitness(s.workers, WaitDeath);
      a := Work(i);
    } else if MasterEnabled(s) {
      a := Master;
    } else {
      a := WorkerCanMove(s);
    }
  }

  lemma WorkerCanMove(s: State) returns (a: Action)
    requires Balanced(Books(s)) && s.capacity == |s.workers| + 1 && s.master.Collect? && !MasterEnabled(s)
    ensures Enabled(s, a) && !a.Master? && !a.PostEvent?
  {
    var c := Census(s.workers);
    var pc;
    if s.master.step == 1 {
      pc := if c.waitStart > 0 then WaitStart else if c.send1 > 0 then Send1 else Wait2;
    } else {
      pc := if c.wait1 > 0 then Wait1 else if c.prepare > 0 then Prepare else if c.task > 0 then Task
            else if c.send2 > 0 then Send2 else if c.count > 0 then Count else SendDeath;
    }
    var i := AtWitness(s.workers, pc);
    a := if pc == Task then Finish(i, Miss) else Work(i);
  }

  // The step from one program counter to the next shortens what lies ahead.
  lemma AheadFalls(s: State, pre: Pc, post: Pc)
    requires Placed(s, pre) && InRound(s.master)
    requires Follows(pre, post)
    requires pre == Wait1 ==> Running(s.master)
    ensures Ahead(s.master, post) < Ahead(s.master, pre)
  {
  }

  lemma AheadKept(s: State, pc: Pc)
    requires Placed(s, pc) && InRound(s.master) && MasterEnabled(s) && InRound(MasterStep(s).master)
    ensures Ahead(s.master, pc) == Ahead(MasterStep(s).master, pc)
  {
  }

  lemma BoundedProgress(s: State)
    requires Balanced(Books(s))
    ensures Progress(s.master) <= s.nworkers
  {
  }

  lemma MasterMeasure(s: State)
    requires InRound(s.master) && MasterEnabled(s) && InRound(MasterStep(s).master)
    requires Progress(s.master) <= s.nworkers && Progress(MasterStep(s).master) <= s.nworkers
    requires Gathering(s.master) || Running(s.master) || Regrouping(s.master)
    ensures MasterAhead(MasterStep(s).master, s.nworkers) < MasterAhead(s.master, s.nworkers)
  {
  }

  lemma AllAheadKept(s: State)
    requires Balanced(Books(s)) && InRound(s.master) && MasterEnabled(s) && InRound(MasterStep(s).master)
    ensures AheadAll(s.master, s.workers) == AheadAll(MasterStep(s).master, s.workers)
  {
    forall i | 0 <= i < |s.workers|
      ensures Ahead(s.master, s.workers[i].pc) == Ahead(MasterStep(s).master, s.workers[i].pc)
    {
      BalancedPlaces(s, i);
      AheadKept(s, s.workers[i].pc);
    }
    AheadSame(s.master, MasterStep(s).master, s.workers);
  }

  lemma MasterProgress(s: State)
    requires Balanced(Books(s)) && MasterEnabled(s) && Prompt(s, Master)
    ensures Progress(s.master) <= s.nworkers && Progress(MasterStep(s).master) <= MasterStep(s).nworkers
    ensures Gathering(s.master) || Running(s.master) || Regrouping(s.master)
  {
    KeepsBooks(s, Master);
    BoundedProgress(MasterStep(s));
  }

  lemma MasterAdvances(s: State)
    requires Balanced(Books(s)) && InRound(s.master) && MasterEnabled(s) && Prompt(s, Master)
    requires InRound(MasterStep(s).master)
    ensures Progress(s.master) <= s.nworkers && Progress(MasterStep(s).master) <= MasterStep(s).nworkers
    ensures Measure(MasterStep(s)) < Measure(s)
  {
    MasterProgress(s);
    AllAheadKept(s);
    SameWorkers(s);
    MasterMeasure(s);
  }

  lemma SameWorkers(s: State)
    requires InRound(s.master) && MasterEnabled(s) && InRound(MasterStep(s).master)
    ensures MasterStep(s).workers == s.workers && MasterStep(s).nworkers == s.nworkers
  {
  }

  lemma WorkerAdvances(s: State, a: Action)
    requires Balanced(Books(s)) && InRound(s.master) && Enabled(s, a) && (a.Work? || a.Finish? || a.Die?)
    ensures Apply(s, a).master == s.master && Apply(s, a).nworkers == s.nworkers
    ensures Progress(s.master) <= s.nworkers && Measure(Apply(s, a)) < Measure(s)
  {
    BalancedPlaces(s, a.w);
    BoundedProgress(s);
    WorkerFollows(s, a);
    AheadFalls(s, s.workers[a.w].pc, Apply(s, a).workers[a.w].pc);
    AheadMove(s.master, s.workers, a.w, Apply(s, a).workers[a.w]);
  }

  function Steps(acts: seq<Action>): nat {
    if acts == [] then 0 else (if acts[0] == PostEvent then 0 else 1) + Steps(acts[1..])
  }

  // The master has not reached the harvest anywhere along the run.
  predicate StaysInRound(s: State, acts: seq<Action>)
    requires CanRun(s, acts)
    decreases acts
  {
    InRound(s.master) && (acts == [] || StaysInRound(Apply(s, acts[0]), acts[1..]))
  }

  // Each step of a thread within the round lowers the measure.
  lemma StepMeasured(s: State, a: Action)
    requires Inv(s) && Enabled(s, a) && Prompt(s, a) && InRound(s.master) && InRound(Apply(s, a).master)
    ensures Progress(s.master) <= s.nworkers && Progress(Apply(s, a).master) <= Apply(s, a).nworkers
    ensures Measure(Apply(s, a)) + (if a == PostEvent then 0 else 1) <= Measure(s)
  {
    BoundedProgress(s);
    match a
    case Master => MasterAdvances(s);
    case PostEvent =>
    case Work(_) => WorkerAdvances(s, a);
    case Finish(_, _) => WorkerAdvances(s, a);
    case Die(_) => WorkerAdvances(s, a);
  }

  lemma {:induction false} RoundMeasured(s: State, acts: seq<Action>)
    requires Inv(s) && CanRun(s, acts) && PromptRun(s, acts) && StaysInRound(s, acts)
    ensures Progress(s.master) <= s.nworkers && Steps(acts) <= Measure(s)
    decreases acts
  {
    BoundedProgress(s);
    if acts != [] {
      KeepsInv(s, acts[0]);
      StepMeasured(s, acts[0]);
      RoundMeasured(Apply(s, acts[0]), acts[1..]);
    }
  }

  lemma MeasureBound(s: State)
    requires Balanced(Books(s)) && InRound(s.master)
    ensures Progress(s.master) <= s.nworkers && Measure(s) <= 12 * |s.workers| + 5
  {
    BoundedProgress(s);
    AheadBound(s.master, s.workers);
    WorkersBound(s);
    MasterAheadBound(s.master, s.nworkers);
  }

  lemma MasterAheadBound(m: MasterPc, n: nat)
    requires InRound(m) && Progress(m) <= n
    ensures MasterAhead(m, n) <= 4 * n + 5
  {
  }

  lemma RoundShort(s: State, acts: seq<Action>)
    requires Inv(s) && CanRun(s, acts) && PromptRun(s, acts) && StaysInRound(s, acts)
    ensures Steps(acts) <= 12 * |s.workers| + 5
  {
    RoundMeasured(s, acts);
    assert InRound(s.master);
    MeasureBound(s);
  }

  lemma RoundGoesOn(s: State, acts: seq<Action>) returns (a: Action)
    requires Inv(s) && CanRun(s, acts) && PromptRun(s, acts) && StaysInRound(s, acts)
    ensures a != PostEvent && Enabled(After(s, acts), a) && Prompt(After(s, acts), a)
  {
    RunKeepsInv(s, acts);
    EndsInRound(s, acts);
    a := SomeStepEnabled(After(s, acts));
  }

  // Once the master has taken an event no schedule keeps it from the harvest:
  // some thread can always move, and 12 n + 5 steps are enough.
  lemma RoundEnds(n: nat, before: seq<Action>, s: State, acts: seq<Action>)
    requires Reaches(n, before, s)
    requires CanRun(s, acts) && PromptRun(s, acts) && StaysInRound(s, acts)
    ensures Steps(acts) <= 12 * n + 5
    ensures exists a :: a != PostEvent && Enabled(After(s, acts), a) && Prompt(After(s, acts), a)
  {
    ReachesInv(n, before, s);
    RoundShort(s, acts);
    var a := RoundGoesOn(s, acts);
  }

  lemma WorkersBound(s: State)
    requires Balanced(Books(s))
    ensures s.nworkers <= |s.workers|
  {
  }

  lemma {:induction false} EndsInRound(s: State, acts: seq<Action>)
    requires CanRun(s, acts) && StaysInRound(s, acts)
    ensures InRound(After(s, acts).master)
    decreases acts
  {
    if acts != [] {
      EndsInRound(Apply(s, acts[0]), acts[1..]);
    }
  }
}
