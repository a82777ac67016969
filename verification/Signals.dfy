// Delayed evaluation of signals.  A formula may read past and future entries
// of other signals, so an entry stays delayed until the entries it needs
// exist.  This module describes the evaluator by the table of the entries
// computed so far; module SignalEngine is the program that keeps the table.
module Signals {

  datatype Value = Missing | Interpolated | Number(x: real) | Text(s: string) | Tuple(items: seq<Value>)

  // The time columns of a clock: the time, the time since the start of the
  // stream and the time since the sample before.
  datatype Tick = Now | SinceStart | SinceLast

  // What a formula asks for next: an entry of a signal at an offset, all the
  // entries between two offsets, a time; or it returns.
  datatype Request =
    | Return(value: Value)
    | Get(signal: nat, offset: int)
    | Slice(signal: nat, from: int, to: int)
    | Clocked(tick: Tick, offset: int)

  // A formula is asked again after every answer, so what it reads may depend
  // on the raw value and on what it has read; after `limit` answers it returns.
  datatype Formula = Formula(
    plan: (Value, seq<seq<Value>>) -> Request,
    limit: nat,
    final: (Value, seq<seq<Value>>) -> Value)

  function Ask(f: Formula, raw: Value, answers: seq<seq<Value>>): Request {
    if |answers| < f.limit then f.plan(raw, answers) else Return(f.final(raw, answers))
  }

  datatype Sample = Sample(time: real, raws: seq<Value>)

  type Program = seq<Formula>

  // For each signal its computed entries; the entries after them are delayed.
  type Table = seq<seq<Value>>

  predicate InRange(r: Request, n: nat) {
    match r
    case Get(s, _) => s < n
    case Slice(s, _, _) => s < n
    case _ => true
  }

  ghost predicate WellFormed(prog: Program) {
    forall s, raw, answers :: 0 <= s < |prog| ==> InRange(Ask(prog[s], raw, answers), |prog|)
  }

  function Times(samples: seq<Sample>): seq<real> {
    seq(|samples|, i requires 0 <= i < |samples| => samples[i].time)
  }

  function TickValue(times: seq<real>, tick: Tick, j: nat): Value
    requires j < |times|
  {
    match tick
    case Now => Number(times[j])
    case SinceStart => Number(times[j] - times[0])
    case SinceLast => Number(if j == 0 then 0.0 else times[j] - times[j - 1])
  }

  // ---------------------------------------------------------------- one evaluation

  datatype Answer = Got(values: seq<Value>) | TooOld | NotYet

  function Entry(column: seq<Value>, j: int): Answer {
    if j < 0 then TooOld else if j < |column| then Got([column[j]]) else NotYet
  }

  // The answer to a request made while entry i is evaluated.  Of the two ends
  // of a slice the first is looked up first.
  function Lookup(tab: Table, times: seq<real>, i: nat, r: Request): Answer
    requires InRange(r, |tab|) && !r.Return?
  {
    match r
    case Get(s, offset) => Entry(tab[s], i + offset)
    case Slice(s, from, to) =>
      if !Entry(tab[s], i + from).Got? then Entry(tab[s], i + from)
      else if !Entry(tab[s], i + to).Got? then Entry(tab[s], i + to)
      else Got(if from <= to then tab[s][i + from..i + to + 1] else [])
    case Clocked(tick, offset) =>
      if i + offset < 0 then TooOld
      else if i + offset < |times| then Got([TickValue(times, tick, i + offset)])
      else NotYet
  }

  datatype Outcome = Done(value: Value) | Delayed

  // Entry i of a formula, evaluated on a table: a read before the start gives
  // Missing, the first read of an entry that is not there yet delays it.
  function Evaluate(f: Formula, raw: Value, tab: Table, times: seq<real>, i: nat, answers: seq<seq<Value>>): Outcome
    requires forall r, a :: InRange(Ask(f, r, a), |tab|)
    decreases f.limit - |answers|
  {
    match Ask(f, raw, answers)
    case Return(v) => Done(v)
    case r =>
      match Lookup(tab, times, i, r)
      case Got(vs) => Evaluate(f, raw, tab, times, i, answers + [vs])
      case TooOld => Done(Missing)
      case NotYet => Delayed
  }

  // ---------------------------------------------------------------- the stream

  // A signal is evaluated entry by entry until one is delayed.  The raw value
  // is the one of the newest sample, whichever entry is evaluated.
  function Drain(prog: Program, raw: Value, times: seq<real>, tab: Table, s: nat): (r: Table)
    requires WellFormed(prog) && |tab| == |prog| && s < |prog|
    ensures |r| == |tab|
    decreases |times| - |tab[s]|
  {
    if |tab[s]| >= |times| then tab
    else match Evaluate(prog[s], raw, tab, times, |tab[s]|, [])
      case Done(v) => Drain(prog, raw, times, tab[s := tab[s] + [v]], s)
      case Delayed => tab
  }

  predicate Lists(order: seq<nat>, n: nat) {
    forall k :: 0 <= k < |order| ==> order[k] < n
  }

  // Every signal is listed.
  predicate ListsAll(order: seq<nat>, n: nat) {
    Lists(order, n) && forall s :: 0 <= s < n ==> s in order
  }

  function Pass(prog: Program, raws: seq<Value>, times: seq<real>, tab: Table, order: seq<nat>): (r: Table)
    requires WellFormed(prog) && |tab| == |prog| == |raws|
    requires Lists(order, |prog|)
    ensures |r| == |tab|
    decreases order
  {
    if order == [] then tab
    else Pass(prog, raws, times, Drain(prog, raws[order[0]], times, tab, order[0]), order[1..])
  }

  // The table after these samples, the signals being listed in this order.
  function Stream(prog: Program, samples: seq<Sample>, order: seq<nat>): (r: Table)
    requires WellFormed(prog) && ListsAll(order, |prog|)
    requires forall k :: 0 <= k < |samples| ==> |samples[k].raws| == |prog|
    ensures |r| == |prog|
  {
    if samples == [] then seq(|prog|, i => [])
    else
      var before := Stream(prog, samples[..|samples| - 1], order);
      Pass(prog, samples[|samples| - 1].raws, Times(samples), before, order)
  }

  // ---------------------------------------------------------------- the catch-up at the end

  // At the end an entry that would be delayed is Missing.
  function Force(prog: Program, times: seq<real>, tab: Table, s: nat): (r: Table)
    requires WellFormed(prog) && |tab| == |prog| && s < |prog|
    ensures |r| == |tab|
  {
    if |tab[s]| >= |times| then tab
    else
      var outcome := Evaluate(prog[s], Missing, tab, times, |tab[s]|, []);
      tab[s := tab[s] + [if outcome.Done? then outcome.value else Missing]]
  }

  function ForceAll(prog: Program, times: seq<real>, tab: Table, order: seq<nat>): (r: Table)
    requires WellFormed(prog) && |tab| == |prog|
    requires Lists(order, |prog|)
    ensures |r| == |tab|
    decreases order
  {
    if order == [] then tab else ForceAll(prog, times, Force(prog, times, tab, order[0]), order[1..])
  }

  predicate Grows(tab: Table, tab': Table) {
    |tab| == |tab'| && forall s :: 0 <= s < |tab| ==> tab[s] <= tab'[s]
  }

  predicate Bounded(tab: Table, n: nat) {
    forall s :: 0 <= s < |tab| ==> |tab[s]| <= n
  }

  predicate Complete(tab: Table, n: nat) {
    forall s :: 0 <= s < |tab| ==> |tab[s]| == n
  }

  // How many entries are delayed.
  function Backlog(tab: Table, n: nat): nat {
    if tab == [] then 0 else (if |tab[0]| < n then n - |tab[0]| else 0) + Backlog(tab[1..], n)
  }

  lemma {:induction false} BacklogPush(tab: Table, n: nat, s: nat, v: Value)
    requires s < |tab| && |tab[s]| < n
    ensures Backlog(tab[s := tab[s] + [v]], n) == Backlog(tab, n) - 1
  {
    if s == 0 {
      assert tab[0 := tab[0] + [v]][1..] == tab[1..];
    } else {
      BacklogPush(tab[1..], n, s - 1, v);
      assert tab[s := tab[s] + [v]][1..] == tab[1..][s - 1 := tab[s] + [v]];
    }
  }

  // Forcing shortens the backlog as long as a listed signal has one.
  lemma {:induction false} ForceAllShortens(prog: Program, times: seq<real>, tab: Table, order: seq<nat>)
    requires WellFormed(prog) && |tab| == |prog| && Lists(order, |prog|) && Bounded(tab, |times|)
    ensures var r := ForceAll(prog, times, tab, order);
            && Grows(tab, r) && Bounded(r, |times|)
            && Backlog(r, |times|) <= Backlog(tab, |times|)
            && ((exists s :: s in order && |tab[s]| < |times|) ==> Backlog(r, |times|) < Backlog(tab, |times|))
    decreases order
  {
    if order != [] {
      var s := order[0];
      var tab' := Force(prog, times, tab, s);
      if |tab[s]| < |times| {
        BacklogPush(tab, |times|, s, tab'[s][|tab[s]|]);
      }
      ForceAllShortens(prog, times, tab', order[1..]);
    }
  }

  // Forcing passes are made until nothing is delayed.
  function CatchUp(prog: Program, times: seq<real>, tab: Table, order: seq<nat>): (r: Table)
    requires WellFormed(prog) && |tab| == |prog| && ListsAll(order, |prog|) && Bounded(tab, |times|)
    ensures |r| == |prog| && Complete(r, |times|) && Grows(tab, r)
    decreases Backlog(tab, |times|)
  {
    if Complete(tab, |times|) then tab
    else
      ForceAllShortens(prog, times, tab, order);
      var s :| 0 <= s < |tab| && |tab[s]| != |times|;
      assert s in order && |tab[s]| < |times|;
      CatchUp(prog, times, ForceAll(prog, times, tab, order), order)
  }

  // On a table on the way from one to the other, entry i was what its formula
  // gives without a raw value, or Missing where it would have been delayed.
  ghost predicate CaughtUp(prog: Program, times: seq<real>, tab: Table, final: Table, s: nat, i: nat)
    requires WellFormed(prog) && |tab| == |final| == |prog| && s < |prog| && i < |final[s]|
  {
    exists now: Table :: Between(tab, now, final) && ForcedOn(prog, times, now, s, i, final[s][i])
  }

  predicate Between(tab: Table, now: Table, final: Table) {
    Grows(tab, now) && Grows(now, final)
  }

  ghost predicate ForcedOn(prog: Program, times: seq<real>, now: Table, s: nat, i: nat, value: Value)
    requires WellFormed(prog) && s < |prog|
  {
    && |now| == |prog| && |now[s]| == i
    && match Evaluate(prog[s], Missing, now, times, i, [])
       case Done(v) => value == v
       case Delayed => value == Missing
  }

  lemma {:induction false} ForceAllForces(prog: Program, times: seq<real>, tab: Table, order: seq<nat>, s: nat, i: nat)
    requires WellFormed(prog) && |tab| == |prog| && Lists(order, |prog|) && Bounded(tab, |times|) && s < |prog|
    requires |tab[s]| <= i < |ForceAll(prog, times, tab, order)[s]|
    ensures CaughtUp(prog, times, tab, ForceAll(prog, times, tab, order), s, i)
    decreases order
  {
    var final := ForceAll(prog, times, tab, order);
    var tab' := Force(prog, times, tab, order[0]);
    ForceAllShortens(prog, times, tab, order);
    ForceAllShortens(prog, times, tab', order[1..]);
    if order[0] == s && |tab[s]| == i {
      assert tab'[s] <= final[s];
      assert Between(tab, tab, final) && ForcedOn(prog, times, tab, s, i, final[s][i]);
    } else {
      ForceAllForces(prog, times, tab', order[1..], s, i);
      var now :| Between(tab', now, final) && ForcedOn(prog, times, now, s, i, final[s][i]);
      assert Between(tab, now, final);
    }
  }

  // Every entry computed in the catch-up.
  lemma {:induction false} CatchUpForces(prog: Program, times: seq<real>, tab: Table, order: seq<nat>, s: nat, i: nat)
    requires WellFormed(prog) && |tab| == |prog| && ListsAll(order, |prog|) && Bounded(tab, |times|)
    requires s < |prog| && |tab[s]| <= i < |times|
    ensures CaughtUp(prog, times, tab, CatchUp(prog, times, tab, order), s, i)
    decreases Backlog(tab, |times|)
  {
    var r, final := ForceAll(prog, times, tab, order), CatchUp(prog, times, tab, order);
    ForceAllShortens(prog, times, tab, order);
    assert s in order && final == CatchUp(prog, times, r, order);
    if i < |r[s]| {
      ForceAllForces(prog, times, tab, order, s, i);
      var now :| Between(tab, now, r) && ForcedOn(prog, times, now, s, i, r[s][i]);
      assert r[s] <= final[s];
      assert Between(tab, now, final);
    } else {
      CatchUpForces(prog, times, r, order, s, i);
      var now :| Between(r, now, final) && ForcedOn(prog, times, now, s, i, final[s][i]);
      assert Between(tab, now, final);
    }
  }

  // A read before the start of the stream makes an entry Missing.
  lemma EarlyReadIsMissing(f: Formula, raw: Value, tab: Table, times: seq<real>, i: nat, answers: seq<seq<Value>>)
    requires forall r, a :: InRange(Ask(f, r, a), |tab|)
    requires match Ask(f, raw, answers)
             case Return(_) => false
             case Get(_, offset) => i + offset < 0
             case Slice(_, from, _) => i + from < 0
             case Clocked(_, offset) => i + offset < 0
    ensures Evaluate(f, raw, tab, times, i, answers) == Done(Missing)
  {
  }

  // ---------------------------------------------------------------- tables only grow

  lemma LookupGrows(tab: Table, times: seq<real>, tab': Table, times': seq<real>, i: nat, r: Request)
    requires Grows(tab, tab') && times <= times'
    requires InRange(r, |tab|) && !r.Return? && !Lookup(tab, times, i, r).NotYet?
    ensures Lookup(tab', times', i, r) == Lookup(tab, times, i, r)
  {
  }

  // An entry once computable keeps its value when the table grows.
  lemma {:induction false} EvaluateGrows(f: Formula, raw: Value, tab: Table, times: seq<real>, tab': Table,
                                         times': seq<real>,
                                         i: nat, answers: seq<seq<Value>>)
    requires Grows(tab, tab') && times <= times'
    requires forall r, a :: InRange(Ask(f, r, a), |tab|)
    requires Evaluate(f, raw, tab, times, i, answers).Done?
    ensures Evaluate(f, raw, tab', times', i, answers) == Evaluate(f, raw, tab, times, i, answers)
    decreases f.limit - |answers|
  {
    var r := Ask(f, raw, answers);
    if !r.Return? {
      LookupGrows(tab, times, tab', times', i, r);
      var answer := Lookup(tab, times, i, r);
      if answer.Got? {
        EvaluateGrows(f, raw, tab, times, tab', times', i, answers + [answer.values]);
      }
    }
  }

  lemma {:induction false} DrainGrows(prog: Program, raw: Value, times: seq<real>, tab: Table, s: nat)
    requires WellFormed(prog) && |tab| == |prog| && s < |prog| && |tab[s]| <= |times|
    ensures var r := Drain(prog, raw, times, tab, s);
            Grows(tab, r) && |r[s]| <= |times| && forall t :: 0 <= t < |tab| && t != s ==> r[t] == tab[t]
    decreases |times| - |tab[s]|
  {
    if |tab[s]| < |times| {
      var outcome := Evaluate(prog[s], raw, tab, times, |tab[s]|, []);
      if outcome.Done? {
        DrainGrows(prog, raw, times, tab[s := tab[s] + [outcome.value]], s);
      }
    }
  }

  lemma {:induction false} PassGrows(prog: Program, raws: seq<Value>, times: seq<real>, tab: Table, order: seq<nat>)
    requires WellFormed(prog) && |tab| == |prog| == |raws| && Lists(order, |prog|) && Bounded(tab, |times|)
    ensures Grows(tab, Pass(prog, raws, times, tab, order)) && Bounded(Pass(prog, raws, times, tab, order), |times|)
    decreases order
  {
    if order != [] {
      DrainGrows(prog, raws[order[0]], times, tab, order[0]);
      PassGrows(prog, raws, times, Drain(prog, raws[order[0]], times, tab, order[0]), order[1..]);
    }
  }

  predicate Fits(prog: Program, samples: seq<Sample>) {
    forall k :: 0 <= k < |samples| ==> |samples[k].raws| == |prog|
  }

  lemma {:induction false} StreamBounded(prog: Program, samples: seq<Sample>, order: seq<nat>)
    requires WellFormed(prog) && ListsAll(order, |prog|) && Fits(prog, samples)
    ensures Bounded(Stream(prog, samples, order), |samples|)
  {
    if samples != [] {
      var before := samples[..|samples| - 1];
      StreamBounded(prog, before, order);
      PassGrows(prog, samples[|samples| - 1].raws, Times(samples), Stream(prog, before, order), order);
    }
  }

  // A computed entry is never rewritten, however long the stream goes on.
  lemma {:induction false} StreamGrows(prog: Program, samples: seq<Sample>, more: seq<Sample>, order: seq<nat>)
    requires WellFormed(prog) && ListsAll(order, |prog|) && Fits(prog, samples + more)
    ensures Fits(prog, samples) && Grows(Stream(prog, samples, order), Stream(prog, samples + more, order))
    decreases |more|
  {
    assert forall k :: 0 <= k < |samples| ==> samples[k] == (samples + more)[k];
    if more == [] {
      assert samples + more == samples;
    } else {
      var all, last := samples + more, more[..|more| - 1];
      assert all[..|all| - 1] == samples + last;
      assert forall k :: 0 <= k < |samples + last| ==> (samples + last)[k] == all[k];
      StreamGrows(prog, samples, last, order);
      StreamBounded(prog, samples + last, order);
      PassGrows(prog, all[|all| - 1].raws, Times(all), Stream(prog, samples + last, order), order);
    }
  }

  // ---------------------------------------------------------------- every computed entry is right

  // A delayed entry is evaluated again with the raw value of a later sample,
  // so a formula that looks at its raw value must never be delayed.  That is so
  // if it reads nothing, or only times up to its own entry and entries before
  // its own of signals of the same kind (an accumulator reads its last entry).
  predicate Past(r: Request, past: set<nat>) {
    match r
    case Return(_) => true
    case Get(s, offset) => s in past && offset < 0
    case Slice(s, from, to) => s in past && from < 0 && to < 0
    case Clocked(_, offset) => offset <= 0
  }

  ghost predicate Punctual(f: Formula, past: set<nat>) {
    forall raw, answers :: Past(Ask(f, raw, answers), past)
  }

  ghost predicate RawBlind(f: Formula) {
    forall raw, raw', answers :: Ask(f, raw, answers) == Ask(f, raw', answers)
  }

  ghost predicate Admissible(prog: Program, past: set<nat>) {
    forall s :: 0 <= s < |prog| ==> if s in past then Punctual(prog[s], past) else RawBlind(prog[s])
  }

  // Entry i of signal s is what its formula gives on this table.
  ghost predicate Right(prog: Program, samples: seq<Sample>, tab: Table, times: seq<real>, s: nat, i: nat)
    requires WellFormed(prog) && Fits(prog, samples) && |tab| == |prog| && s < |prog| && i < |tab[s]| && i < |samples|
  {
    Evaluate(prog[s], samples[i].raws[s], tab, times, i, []) == Done(tab[s][i])
  }

  ghost predicate AllRight(prog: Program, samples: seq<Sample>, tab: Table, times: seq<real>)
    requires WellFormed(prog) && Fits(prog, samples)
  {
    && |tab| == |prog| && Bounded(tab, |samples|)
    && forall s, i :: 0 <= s < |tab| && 0 <= i < |tab[s]| ==> Right(prog, samples, tab, times, s, i)
  }

  // The signals of `past` have at least n entries.
  predicate Prompt(tab: Table, past: set<nat>, n: int) {
    forall s :: s in past && s < |tab| ==> |tab[s]| >= n
  }

  lemma {:induction false} PunctualDone(f: Formula, past: set<nat>, raw: Value, tab: Table, times: seq<real>, i: nat,
                                        answers: seq<seq<Value>>)
    requires forall r, a :: InRange(Ask(f, r, a), |tab|)
    requires Punctual(f, past) && Prompt(tab, past, i) && i < |times|
    ensures Evaluate(f, raw, tab, times, i, answers).Done?
    decreases f.limit - |answers|
  {
    var r := Ask(f, raw, answers);
    assert Past(r, past) && InRange(r, |tab|);
    if !r.Return? {
      var answer := Lookup(tab, times, i, r);
      if answer.Got? {
        PunctualDone(f, past, raw, tab, times, i, answers + [answer.values]);
      }
    }
  }

  lemma {:induction false} RawDoesNotMatter(f: Formula, raw: Value, raw': Value, tab: Table, times: seq<real>,
                                            i: nat, answers: seq<seq<Value>>)
    requires RawBlind(f) && forall r, a :: InRange(Ask(f, r, a), |tab|)
    ensures Evaluate(f, raw, tab, times, i, answers) == Evaluate(f, raw', tab, times, i, answers)
    decreases f.limit - |answers|
  {
    var r := Ask(f, raw, answers);
    assert r == Ask(f, raw', answers);
    if !r.Return? {
      var answer := Lookup(tab, times, i, r);
      if answer.Got? {
        RawDoesNotMatter(f, raw, raw', tab, times, i, answers + [answer.values]);
      }
    }
  }

  lemma {:induction false} DrainRight(prog: Program, past: set<nat>, samples: seq<Sample>, times: seq<real>,
                                      tab: Table, s: nat)
    requires WellFormed(prog) && Admissible(prog, past) && Fits(prog, samples) && |samples| == |times| > 0
    requires AllRight(prog, samples, tab, times) && Prompt(tab, past, |samples| - 1) && s < |prog|
    ensures var r := Drain(prog, samples[|samples| - 1].raws[s], times, tab, s);
            && AllRight(prog, samples, r, times)
            && Prompt(r, past, |samples| - 1)
            && (s in past ==> |r[s]| == |samples|)
    decreases |times| - |tab[s]|
  {
    var raw, i := samples[|samples| - 1].raws[s], |tab[s]|;
    if i < |times| {
      var outcome := Evaluate(prog[s], raw, tab, times, i, []);
      if outcome.Done? {
        var tab' := tab[s := tab[s] + [outcome.value]];
        if i < |samples| - 1 {
          assert RawBlind(prog[s]);
          RawDoesNotMatter(prog[s], raw, samples[i].raws[s], tab, times, i, []);
        }
        EvaluateGrows(prog[s], samples[i].raws[s], tab, times, tab', times, i, []);
        forall t, j | 0 <= t < |tab'| && 0 <= j < |tab'[t]|
          ensures Right(prog, samples, tab', times, t, j)
        {
          if t != s || j < i {
            assert Right(prog, samples, tab, times, t, j);
            EvaluateGrows(prog[t], samples[j].raws[t], tab, times, tab', times, j, []);
          }
        }
        DrainRight(prog, past, samples, times, tab', s);
      } else if s in past {
        PunctualDone(prog[s], past, raw, tab, times, i, []);
      }
    }
  }

  lemma {:induction false} PassRight(prog: Program, past: set<nat>, samples: seq<Sample>, times: seq<real>,
                                     tab: Table, order: seq<nat>)
    requires WellFormed(prog) && Admissible(prog, past) && Fits(prog, samples) && |samples| == |times| > 0
    requires AllRight(prog, samples, tab, times) && Prompt(tab, past, |samples| - 1) && Lists(order, |prog|)
    ensures var r := Pass(prog, samples[|samples| - 1].raws, times, tab, order);
            && AllRight(prog, samples, r, times)
            && Prompt(r, past, |samples| - 1)
            && (forall s :: s in order && s in past ==> |r[s]| == |samples|)
    decreases order
  {
    if order != [] {
      var raws, s := samples[|samples| - 1].raws, order[0];
      var tab' := Drain(prog, raws[s], times, tab, s);
      DrainRight(prog, past, samples, times, tab, s);
      PassRight(prog, past, samples, times, tab', order[1..]);
      PassGrows(prog, raws, times, tab', order[1..]);
    }
  }

  // Whatever the order of the signals and however long entries were delayed,
  // every entry in the table is what its formula gives on that table.
  lemma {:induction false} StreamRight(prog: Program, past: set<nat>, samples: seq<Sample>, order: seq<nat>)
    requires WellFormed(prog) && Admissible(prog, past) && ListsAll(order, |prog|) && Fits(prog, samples)
    ensures AllRight(prog, samples, Stream(prog, samples, order), Times(samples))
    ensures Prompt(Stream(prog, samples, order), past, |samples|)
  {
    if samples != [] {
      var before := samples[..|samples| - 1];
      var tab, times := Stream(prog, before, order), Times(samples);
      StreamRight(prog, past, before, order);
      forall s, i | 0 <= s < |tab| && 0 <= i < |tab[s]|
        ensures Right(prog, samples, tab, times, s, i)
      {
        assert Right(prog, before, tab, Times(before), s, i);
        EvaluateGrows(prog[s], samples[i].raws[s], tab, Times(before), tab, times, i, []);
      }
      PassRight(prog, past, samples, times, tab, order);
    }
  }

  // The table at the end of the stream, after the catch-up.
  function FinalTable(prog: Program, samples: seq<Sample>, order: seq<nat>): (r: Table)
    requires WellFormed(prog) && ListsAll(order, |prog|) && Fits(prog, samples)
    ensures Complete(r, |samples|) && Grows(Stream(prog, samples, order), r)
  {
    StreamBounded(prog, samples, order);
    CatchUp(prog, Times(samples), Stream(prog, samples, order), order)
  }

  // An entry computed at any moment of a stream is kept to the end and is what
  // its formula gives on the final table.
  lemma EntriesAreFinal(prog: Program, past: set<nat>, samples: seq<Sample>, more: seq<Sample>, order: seq<nat>,
                        s: nat, i: nat)
    requires WellFormed(prog) && Admissible(prog, past) && ListsAll(order, |prog|) && Fits(prog, samples + more)
    requires s < |prog| && Fits(prog, samples) && i < |Stream(prog, samples, order)[s]|
    ensures var all, final := samples + more, FinalTable(prog, samples + more, order);
            && i < |samples| && i < |final[s]|
            && final[s][i] == Stream(prog, samples, order)[s][i]
            && Right(prog, all, final, Times(all), s, i)
  {
    var all := samples + more;
    var tab := Stream(prog, all, order);
    StreamBounded(prog, samples, order);
    StreamGrows(prog, samples, more, order);
    StreamRight(prog, past, all, order);
    assert Stream(prog, samples, order)[s] <= tab[s];
    assert Right(prog, all, tab, Times(all), s, i);
    var final := FinalTable(prog, all, order);
    assert tab[s] <= final[s];
    EvaluateGrows(prog[s], all[i].raws[s], tab, Times(all), final, Times(all), i, []);
  }

  // Of any program: an entry is what its formula gives on the table with the
  // raw value of its own sample or of a later one.
  ghost predicate Explained(prog: Program, samples: seq<Sample>, tab: Table, times: seq<real>)
    requires WellFormed(prog) && Fits(prog, samples)
  {
    && |tab| == |prog| && Bounded(tab, |samples|)
    && forall s, i :: 0 <= s < |tab| && 0 <= i < |tab[s]| ==> HasRaw(prog, samples, tab, times, s, i)
  }

  ghost predicate HasRaw(prog: Program, samples: seq<Sample>, tab: Table, times: seq<real>, s: nat, i: nat)
    requires WellFormed(prog) && Fits(prog, samples) && |tab| == |prog| && s < |prog| && i < |tab[s]|
  {
    exists k :: i <= k < |samples| && Evaluate(prog[s], samples[k].raws[s], tab, times, i, []) == Done(tab[s][i])
  }

  lemma HasRawGrows(prog: Program, samples: seq<Sample>, tab: Table, times: seq<real>,
                    samples': seq<Sample>, tab': Table, times': seq<real>, s: nat, i: nat)
    requires WellFormed(prog) && Fits(prog, samples') && samples <= samples' && Fits(prog, samples)
    requires |tab| == |prog| && s < |prog| && i < |tab[s]|
    requires Grows(tab, tab') && times <= times' && HasRaw(prog, samples, tab, times, s, i)
    ensures i < |tab'[s]| && HasRaw(prog, samples', tab', times', s, i)
  {
    assert tab[s] <= tab'[s];
    var k :| i <= k < |samples| && Evaluate(prog[s], samples[k].raws[s], tab, times, i, []) == Done(tab[s][i]);
    EvaluateGrows(prog[s], samples[k].raws[s], tab, times, tab', times', i, []);
    assert samples'[k] == samples[k];
  }

  lemma {:induction false} DrainExplained(prog: Program, samples: seq<Sample>, times: seq<real>, tab: Table, s: nat)
    requires WellFormed(prog) && Fits(prog, samples) && |samples| == |times| > 0
    requires Explained(prog, samples, tab, times) && s < |prog|
    ensures Explained(prog, samples, Drain(prog, samples[|samples| - 1].raws[s], times, tab, s), times)
    decreases |times| - |tab[s]|
  {
    var raw, i := samples[|samples| - 1].raws[s], |tab[s]|;
    if i < |times| {
      var outcome := Evaluate(prog[s], raw, tab, times, i, []);
      if outcome.Done? {
        var tab' := tab[s := tab[s] + [outcome.value]];
        EvaluateGrows(prog[s], raw, tab, times, tab', times, i, []);
        forall t, j | 0 <= t < |tab'| && 0 <= j < |tab'[t]|
          ensures HasRaw(prog, samples, tab', times, t, j)
        {
          if t != s || j < i {
            HasRawGrows(prog, samples, tab, times, samples, tab', times, t, j);
          }
        }
        DrainExplained(prog, samples, times, tab', s);
      }
    }
  }

  lemma {:induction false} PassExplained(prog: Program, samples: seq<Sample>, times: seq<real>, tab: Table,
                                         order: seq<nat>)
    requires WellFormed(prog) && Fits(prog, samples) && |samples| == |times| > 0
    requires Explained(prog, samples, tab, times) && Lists(order, |prog|)
    ensures Explained(prog, samples, Pass(prog, samples[|samples| - 1].raws, times, tab, order), times)
    decreases order
  {
    if order != [] {
      var raws := samples[|samples| - 1].raws;
      DrainExplained(prog, samples, times, tab, order[0]);
      PassExplained(prog, samples, times, Drain(prog, raws[order[0]], times, tab, order[0]), order[1..]);
    }
  }

  lemma {:induction false} StreamExplained(prog: Program, samples: seq<Sample>, order: seq<nat>)
    requires WellFormed(prog) && ListsAll(order, |prog|) && Fits(prog, samples)
    ensures Explained(prog, samples, Stream(prog, samples, order), Times(samples))
  {
    if samples != [] {
      var before := samples[..|samples| - 1];
      var tab := Stream(prog, before, order);
      StreamExplained(prog, before, order);
      forall s, i | 0 <= s < |tab| && 0 <= i < |tab[s]|
        ensures HasRaw(prog, samples, tab, Times(samples), s, i)
      {
        HasRawGrows(prog, before, tab, Times(before), samples, tab, Times(samples), s, i);
      }
      PassExplained(prog, samples, Times(samples), tab, order);
    }
  }

  // ---------------------------------------------------------------- what the formulas mean

  // The value of entry i of signal s by the formulas alone: every read is
  // answered by the meaning of what is read.  No table, no order of signals;
  // None when the recursion does not end within `depth`.
  datatype Known = None | Some(value: Value)

  function Meaning(prog: Program, samples: seq<Sample>, depth: nat, s: nat, i: nat): Known
    requires WellFormed(prog) && Fits(prog, samples) && s < |prog|
    decreases depth, 1, 0
  {
    if depth == 0 || i >= |samples| then None
    else Interpret(prog, samples, depth - 1, prog[s], samples[i].raws[s], i, [])
  }

  function Interpret(prog: Program, samples: seq<Sample>, depth: nat, f: Formula, raw: Value, i: nat,
                     answers: seq<seq<Value>>): Known
    requires WellFormed(prog) && Fits(prog, samples)
    requires forall r, a :: InRange(Ask(f, r, a), |prog|)
    decreases depth, 3, f.limit - |answers|
  {
    match Ask(f, raw, answers)
    case Return(v) => Some(v)
    case r =>
      match Denote(prog, samples, depth, i, r)
      case Got(vs) => Interpret(prog, samples, depth, f, raw, i, answers + [vs])
      case TooOld => Some(Missing)
      case NotYet => None
  }

  function DenoteEntry(prog: Program, samples: seq<Sample>, depth: nat, s: nat, j: int): Answer
    requires WellFormed(prog) && Fits(prog, samples) && s < |prog|
    decreases depth, 1, 1
  {
    if j < 0 then TooOld
    else match Meaning(prog, samples, depth, s, j)
      case Some(v) => Got([v])
      case None => NotYet
  }

  // Entries j .. j + n - 1.
  function DenoteRange(prog: Program, samples: seq<Sample>, depth: nat, s: nat, j: nat, n: nat): Answer
    requires WellFormed(prog) && Fits(prog, samples) && s < |prog|
    decreases depth, 2, n
  {
    if n == 0 then Got([])
    else match DenoteRange(prog, samples, depth, s, j, n - 1)
      case Got(vs) =>
        (match Meaning(prog, samples, depth, s, j + n - 1)
         case Some(v) => Got(vs + [v])
         case None => NotYet)
      case other => other
  }

  function Denote(prog: Program, samples: seq<Sample>, depth: nat, i: nat, r: Request): Answer
    requires WellFormed(prog) && Fits(prog, samples) && InRange(r, |prog|) && !r.Return?
    decreases depth, 2, |samples| + 1, 0
  {
    match r
    case Get(s, offset) => DenoteEntry(prog, samples, depth, s, i + offset)
    case Slice(s, from, to) =>
      var first, last := DenoteEntry(prog, samples, depth, s, i + from), DenoteEntry(prog, samples, depth, s, i + to);
      if !first.Got? then first
      else if !last.Got? then last
      else if from <= to && i + to < |samples| then DenoteRange(prog, samples, depth, s, i + from, to - from + 1)
      else Got([])
    case Clocked(tick, offset) =>
      if i + offset < 0 then TooOld
      else if i + offset < |samples| then Got([TickValue(Times(samples), tick, i + offset)])
      else NotYet
  }

  // ---------------------------------------------------------------- meanings do not depend on the depth

  lemma {:induction false} MeaningDeeper(prog: Program, samples: seq<Sample>, d: nat, d': nat, s: nat, i: nat)
    requires WellFormed(prog) && Fits(prog, samples) && s < |prog| && d <= d'
    requires Meaning(prog, samples, d, s, i).Some?
    ensures Meaning(prog, samples, d', s, i) == Meaning(prog, samples, d, s, i)
    decreases d, 1, 0
  {
    InterpretDeeper(prog, samples, d - 1, d' - 1, prog[s], samples[i].raws[s], i, []);
  }

  lemma {:induction false} InterpretDeeper(prog: Program, samples: seq<Sample>, d: nat, d': nat, f: Formula,
                                           raw: Value, i: nat, answers: seq<seq<Value>>)
    requires WellFormed(prog) && Fits(prog, samples) && d <= d'
    requires forall r, a :: InRange(Ask(f, r, a), |prog|)
    requires Interpret(prog, samples, d, f, raw, i, answers).Some?
    ensures Interpret(prog, samples, d', f, raw, i, answers) == Interpret(prog, samples, d, f, raw, i, answers)
    decreases d, 3, f.limit - |answers|
  {
    var r := Ask(f, raw, answers);
    if !r.Return? {
      var answer := Denote(prog, samples, d, i, r);
      DenoteDeeper(prog, samples, d, d', i, r);
      if answer.Got? {
        InterpretDeeper(prog, samples, d, d', f, raw, i, answers + [answer.values]);
      }
    }
  }

  lemma {:induction false} EntryDeeper(prog: Program, samples: seq<Sample>, d: nat, d': nat, s: nat, j: int)
    requires WellFormed(prog) && Fits(prog, samples) && s < |prog| && d <= d'
    requires !DenoteEntry(prog, samples, d, s, j).NotYet?
    ensures DenoteEntry(prog, samples, d', s, j) == DenoteEntry(prog, samples, d, s, j)
    decreases d, 1, 1
  {
    if j >= 0 {
      MeaningDeeper(prog, samples, d, d', s, j);
    }
  }

  lemma {:induction false} RangeDeeper(prog: Program, samples: seq<Sample>, d: nat, d': nat, s: nat, j: nat, n: nat)
    requires WellFormed(prog) && Fits(prog, samples) && s < |prog| && d <= d'
    requires !DenoteRange(prog, samples, d, s, j, n).NotYet?
    ensures DenoteRange(prog, samples, d', s, j, n) == DenoteRange(prog, samples, d, s, j, n)
    decreases d, 2, n
  {
    if n > 0 {
      RangeDeeper(prog, samples, d, d', s, j, n - 1);
      if DenoteRange(prog, samples, d, s, j, n - 1).Got? {
        MeaningDeeper(prog, samples, d, d', s, j + n - 1);
      }
    }
  }

  lemma {:induction false} DenoteDeeper(prog: Program, samples: seq<Sample>, d: nat, d': nat, i: nat, r: Request)
    requires WellFormed(prog) && Fits(prog, samples) && InRange(r, |prog|) && !r.Return? && d <= d'
    requires !Denote(prog, samples, d, i, r).NotYet?
    ensures Denote(prog, samples, d', i, r) == Denote(prog, samples, d, i, r)
    decreases d, 2, |samples| + 1, 0
  {
    match r
    case Get(s, offset) => EntryDeeper(prog, samples, d, d', s, i + offset);
    case Slice(s, from, to) =>
      EntryDeeper(prog, samples, d, d', s, i + from);
      if DenoteEntry(prog, samples, d, s, i + from).Got? {
        EntryDeeper(prog, samples, d, d', s, i + to);
        if DenoteEntry(prog, samples, d, s, i + to).Got? && from <= to && i + to < |samples| {
          RangeDeeper(prog, samples, d, d', s, i + from, to - from + 1);
        }
      }
    case Clocked(_, _) =>
  }

  // ---------------------------------------------------------------- the table holds the meanings

  // Every entry of the table is the meaning of that entry.
  ghost predicate Faithful(prog: Program, samples: seq<Sample>, tab: Table, d: nat)
    requires WellFormed(prog) && Fits(prog, samples)
  {
    && |tab| == |prog| && Bounded(tab, |samples|)
    && forall s, i :: 0 <= s < |tab| && 0 <= i < |tab[s]| ==> Meaning(prog, samples, d, s, i) == Some(tab[s][i])
  }

  lemma EntryMeans(prog: Program, samples: seq<Sample>, tab: Table, d: nat, s: nat, j: int)
    requires WellFormed(prog) && Fits(prog, samples) && Faithful(prog, samples, tab, d) && s < |prog|
    requires !Entry(tab[s], j).NotYet?
    ensures DenoteEntry(prog, samples, d, s, j) == Entry(tab[s], j)
  {
  }

  lemma {:induction false} RangeMeans(prog: Program, samples: seq<Sample>, tab: Table, d: nat, s: nat, j: nat, n: nat)
    requires WellFormed(prog) && Fits(prog, samples) && Faithful(prog, samples, tab, d) && s < |prog|
    requires j + n <= |tab[s]|
    ensures DenoteRange(prog, samples, d, s, j, n) == Got(tab[s][j..j + n])
  {
    if n > 0 {
      RangeMeans(prog, samples, tab, d, s, j, n - 1);
      assert tab[s][j..j + n] == tab[s][j..j + n - 1] + [tab[s][j + n - 1]];
    }
  }

  lemma LookupMeans(prog: Program, samples: seq<Sample>, tab: Table, times: seq<real>, d: nat, i: nat, r: Request)
    requires WellFormed(prog) && Fits(prog, samples) && Faithful(prog, samples, tab, d) && times <= Times(samples)
    requires InRange(r, |prog|) && !r.Return? && !Lookup(tab, times, i, r).NotYet?
    ensures Denote(prog, samples, d, i, r) == Lookup(tab, times, i, r)
  {
    match r
    case Get(s, offset) => EntryMeans(prog, samples, tab, d, s, i + offset);
    case Slice(s, from, to) =>
      EntryMeans(prog, samples, tab, d, s, i + from);
      if Entry(tab[s], i + from).Got? {
        EntryMeans(prog, samples, tab, d, s, i + to);
        if Entry(tab[s], i + to).Got? && from <= to {
          RangeMeans(prog, samples, tab, d, s, i + from, to - from + 1);
        }
      }
    case Clocked(_, _) =>
  }

  lemma {:induction false} EvaluateMeans(prog: Program, samples: seq<Sample>, tab: Table, times: seq<real>, d: nat,
                                         f: Formula, raw: Value, i: nat, answers: seq<seq<Value>>)
    requires WellFormed(prog) && Fits(prog, samples) && Faithful(prog, samples, tab, d) && times <= Times(samples)
    requires forall r, a :: InRange(Ask(f, r, a), |prog|)
    requires Evaluate(f, raw, tab, times, i, answers).Done?
    ensures Interpret(prog, samples, d, f, raw, i, answers) == Some(Evaluate(f, raw, tab, times, i, answers).value)
    decreases f.limit - |answers|
  {
    var r := Ask(f, raw, answers);
    if !r.Return? {
      LookupMeans(prog, samples, tab, times, d, i, r);
      var answer := Lookup(tab, times, i, r);
      if answer.Got? {
        EvaluateMeans(prog, samples, tab, times, d, f, raw, i, answers + [answer.values]);
      }
    }
  }

  lemma {:induction false} DrainMeans(prog: Program, past: set<nat>, samples: seq<Sample>, all: seq<Sample>,
                                      times: seq<real>, tab: Table, s: nat, d: nat)
      returns (d': nat)
    requires WellFormed(prog) && Admissible(prog, past) && Fits(prog, all) && samples <= all && times == Times(samples) && samples != []
    requires Bounded(tab, |samples|) && Prompt(tab, past, |samples| - 1) && s < |prog|
    requires Faithful(prog, all, tab, d)
    ensures Faithful(prog, all, Drain(prog, samples[|samples| - 1].raws[s], times, tab, s), d')
    decreases |times| - |tab[s]|
  {
    var raw, i := samples[|samples| - 1].raws[s], |tab[s]|;
    d' := d;
    if i < |times| {
      var outcome := Evaluate(prog[s], raw, tab, times, i, []);
      if outcome.Done? {
        if i < |samples| - 1 {
          assert RawBlind(prog[s]);
          RawDoesNotMatter(prog[s], raw, samples[i].raws[s], tab, times, i, []);
        }
        EvaluateMeans(prog, all, tab, times, d, prog[s], all[i].raws[s], i, []);
        var tab' := tab[s := tab[s] + [outcome.value]];
        forall t, j | 0 <= t < |tab'| && 0 <= j < |tab'[t]|
          ensures Meaning(prog, all, d + 1, t, j) == Some(tab'[t][j])
        {
          if t != s || j < i {
            assert Meaning(prog, all, d, t, j) == Some(tab[t][j]);
            MeaningDeeper(prog, all, d, d + 1, t, j);
          }
        }
        d' := DrainMeans(prog, past, samples, all, times, tab', s, d + 1);
      }
    }
  }

  lemma {:induction false} PassMeans(prog: Program, past: set<nat>, samples: seq<Sample>, all: seq<Sample>,
                                     times: seq<real>, tab: Table, order: seq<nat>, d: nat)
      returns (d': nat)
    requires WellFormed(prog) && Admissible(prog, past) && Fits(prog, all) && samples <= all && times == Times(samples) && samples != []
    requires Bounded(tab, |samples|) && Prompt(tab, past, |samples| - 1) && Lists(order, |prog|)
    requires Faithful(prog, all, tab, d)
    ensures Faithful(prog, all, Pass(prog, samples[|samples| - 1].raws, times, tab, order), d')
    decreases order
  {
    d' := d;
    if order != [] {
      var raws, s := samples[|samples| - 1].raws, order[0];
      var tab' := Drain(prog, raws[s], times, tab, s);
      d' := DrainMeans(prog, past, samples, all, times, tab, s, d);
      DrainGrows(prog, raws[s], times, tab, s);
      assert forall t :: 0 <= t < |tab| ==> tab[t] <= tab'[t];
      d' := PassMeans(prog, past, samples, all, times, tab', order[1..], d');
    }
  }

  lemma {:induction false} StreamMeans(prog: Program, past: set<nat>, samples: seq<Sample>, all: seq<Sample>,
                                       order: seq<nat>) returns (d: nat)
    requires WellFormed(prog) && Admissible(prog, past) && ListsAll(order, |prog|)
    requires Fits(prog, samples) && Fits(prog, all) && samples <= all
    ensures Faithful(prog, all, Stream(prog, samples, order), d)
  {
    if samples == [] {
      d := 0;
    } else {
      var before := samples[..|samples| - 1];
      d := StreamMeans(prog, past, before, all, order);
      StreamRight(prog, past, before, order);
      d := PassMeans(prog, past, samples, all, Times(samples), Stream(prog, before, order), order, d);
    }
  }

  // Every entry the evaluator computes is the meaning of that entry.
  lemma StreamIsMeaning(prog: Program, past: set<nat>, samples: seq<Sample>, order: seq<nat>, s: nat, i: nat)
    requires WellFormed(prog) && Admissible(prog, past) && ListsAll(order, |prog|) && Fits(prog, samples)
    requires s < |prog| && i < |Stream(prog, samples, order)[s]|
    ensures exists d :: Meaning(prog, samples, d, s, i) == Some(Stream(prog, samples, order)[s][i])
  {
    var d := StreamMeans(prog, past, samples, samples, order);
    assert Meaning(prog, samples, d, s, i) == Some(Stream(prog, samples, order)[s][i]);
  }

  // Neither the order in which signals are listed nor the moment of computing
  // matters: two streams over the same samples agree on every common entry.
  lemma OrderDoesNotMatter(prog: Program, past: set<nat>, all: seq<Sample>, samples: seq<Sample>, order: seq<nat>,
                           samples': seq<Sample>, order': seq<nat>, s: nat, i: nat)
    requires WellFormed(prog) && Admissible(prog, past) && Fits(prog, all) && Fits(prog, samples) && Fits(prog, samples')
    requires samples <= all && samples' <= all && ListsAll(order, |prog|) && ListsAll(order', |prog|)
    requires s < |prog| && i < |Stream(prog, samples, order)[s]| && i < |Stream(prog, samples', order')[s]|
    ensures Stream(prog, samples, order)[s][i] == Stream(prog, samples', order')[s][i]
  {
    var d := StreamMeans(prog, past, samples, all, order);
    var d' := StreamMeans(prog, past, samples', all, order');
    var deep := d + d';
    MeaningDeeper(prog, all, d, deep, s, i);
    MeaningDeeper(prog, all, d', deep, s, i);
  }

  // A formula that mixes its raw value with a read of the future: entry 0 is
  // delayed by the read and then gets the raw value of sample 1.
  function MixedPlan(raw: Value, answers: seq<seq<Value>>): Request {
    if |answers| == 0 then Clocked(Now, 1) else Return(raw)
  }

  const MIXED := Formula(MixedPlan, 1, (raw, answers) => raw)

  lemma MixedFirst(a: Value, times: seq<real>)
    requires |times| == 1
    ensures Drain([MIXED], a, times, [[]], 0) == [[]]
  {
  }

  lemma MixedSecond(b: Value, times: seq<real>)
    requires |times| == 2
    ensures Drain([MIXED], b, times, [[]], 0) == [[b]]
  {
    var none: seq<Value> := [];
    var tab: Table := [none];
    var later := Number(times[1]);
    assert Evaluate(MIXED, b, tab, times, 0, [] + [[later]]) == Done(b);
    assert Evaluate(MIXED, b, tab, times, 0, []) == Done(b);
    assert tab[0] + [b] == [b];
    assert tab[0 := tab[0] + [b]] == [[b]];
    assert Evaluate(MIXED, b, [[b]], times, 1, []) == Delayed;
    assert Drain([MIXED], b, times, [[b]], 0) == [[b]];
  }

  lemma MixedFormulaGetsWrongRaw(a: Value, b: Value)
    requires a != b
    ensures var samples := [Sample(1.0, [a]), Sample(2.0, [b])];
            && WellFormed([MIXED]) && ListsAll([0], 1) && Fits([MIXED], samples)
            && Stream([MIXED], samples, [0]) == [[b]]
            && Evaluate(MIXED, samples[0].raws[0], [[b]], Times(samples), 0, []) == Done(a)
  {
    var samples := [Sample(1.0, [a]), Sample(2.0, [b])];
    var first := samples[..1];
    assert samples[..|samples| - 1] == first && first[..|first| - 1] == [];
    assert [0][1..] == [];
    assert Stream([MIXED], [], [0]) == [[]];
    MixedFirst(a, Times(first));
    assert Stream([MIXED], first, [0]) == [[]];
    MixedSecond(b, Times(samples));
    assert Stream([MIXED], samples, [0]) == [[b]];
    var later := Number(2.0);
    assert Evaluate(MIXED, a, [[b]], Times(samples), 0, [] + [[later]]) == Done(a);
  }
}
