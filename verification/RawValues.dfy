// When a formula may look at its raw value.  A delayed entry is evaluated again
// with the raw value of a later sample; this module says exactly which formulas
// that hurts, for formulas with a fixed list of reads of times and of other
// signals that are computed from their own raw values alone.
module RawValues {
  import opened Signals

  type Result = (Value, seq<seq<Value>>) -> Value

  // The formula makes these reads and returns g of its raw value and the answers.
  ghost predicate AsksFor(f: Formula, asks: seq<Request>, g: Result) {
    forall raw, answers :: Ask(f, raw, answers)
                        == if |answers| < |asks| then asks[|answers|] else Return(g(raw, answers))
  }

  ghost predicate Immediate(f: Formula) {
    forall raw :: Ask(f, raw, []).Return?
  }

  predicate Elsewhere(r: Request, s: nat, n: nat) {
    match r
    case Return(_) => false
    case Get(t, _) => t != s && t < n
    case Slice(t, _, _) => t != s && t < n
    case Clocked(_, _) => true
  }

  // All reads are of times and of signals other than s.
  predicate AllElsewhere(asks: seq<Request>, s: nat, n: nat) {
    forall k :: 0 <= k < |asks| ==> Elsewhere(asks[k], s, n)
  }

  ghost predicate Setting(prog: Program, s: nat, asks: seq<Request>, g: Result) {
    && WellFormed(prog) && s < |prog|
    && AsksFor(prog[s], asks, g) && AllElsewhere(asks, s, |prog|)
    && forall t :: 0 <= t < |prog| && t != s ==> Immediate(prog[t])
  }

  // ---------------------------------------------------------------- what the reads give

  datatype Gathered = All(answers: seq<seq<Value>>) | Old | Later

  // The answers to the reads from the j-th on; the first that fails decides.
  function Gather(asks: seq<Request>, s: nat, tab: Table, times: seq<real>, i: nat, j: nat): Gathered
    requires j <= |asks| && AllElsewhere(asks, s, |tab|)
    decreases |asks| - j
  {
    if j == |asks| then All([])
    else
      match Lookup(tab, times, i, asks[j])
      case Got(vs) =>
        (match Gather(asks, s, tab, times, i, j + 1)
         case All(rest) => All([vs] + rest)
         case other => other)
      case TooOld => Old
      case NotYet => Later
  }

  function Conclude(g: Result, raw: Value, answers: seq<seq<Value>>, more: Gathered): Outcome {
    match more
    case All(rest) => Done(g(raw, answers + rest))
    case Old => Done(Missing)
    case Later => Delayed
  }

  lemma Regroup(a: seq<seq<Value>>, b: seq<seq<Value>>, c: seq<seq<Value>>)
    ensures (a + b) + c == a + (b + c)
  {
  }

  lemma {:induction false} EvaluateGathers(f: Formula, s: nat, asks: seq<Request>, g: Result, raw: Value,
                                           tab: Table, times: seq<real>, i: nat, answers: seq<seq<Value>>)
    requires AsksFor(f, asks, g) && AllElsewhere(asks, s, |tab|) && |answers| <= |asks|
    requires forall r, a :: InRange(Ask(f, r, a), |tab|)
    ensures Evaluate(f, raw, tab, times, i, answers)
         == Conclude(g, raw, answers, Gather(asks, s, tab, times, i, |answers|))
    decreases |asks| - |answers|
  {
    var r := Ask(f, raw, answers);
    if |answers| == |asks| {
      assert answers + [] == answers;
    } else {
      var answer := Lookup(tab, times, i, r);
      if answer.Got? {
        EvaluateGathers(f, s, asks, g, raw, tab, times, i, answers + [answer.values]);
        var more := Gather(asks, s, tab, times, i, |answers| + 1);
        if more.All? {
          Regroup(answers, [answer.values], more.answers);
        }
      }
    }
  }

  // The signal's own column does not matter.
  lemma {:induction false} GatherOff(asks: seq<Request>, s: nat, tab: Table, tab': Table, times: seq<real>, i: nat,
                                     j: nat)
    requires j <= |asks| && AllElsewhere(asks, s, |tab|) && |tab'| == |tab|
    requires forall t :: 0 <= t < |tab| && t != s ==> tab[t] == tab'[t]
    ensures Gather(asks, s, tab', times, i, j) == Gather(asks, s, tab, times, i, j)
    decreases |asks| - j
  {
    if j < |asks| {
      assert Elsewhere(asks[j], s, |tab|);
      GatherOff(asks, s, tab, tab', times, i, j + 1);
    }
  }

  lemma {:induction false} GatherGrows(asks: seq<Request>, s: nat, tab: Table, times: seq<real>,
                                       tab': Table, times': seq<real>, i: nat, j: nat)
    requires j <= |asks| && AllElsewhere(asks, s, |tab|) && Grows(tab, tab') && times <= times'
    requires !Gather(asks, s, tab, times, i, j).Later?
    ensures Gather(asks, s, tab', times', i, j) == Gather(asks, s, tab, times, i, j)
    decreases |asks| - j
  {
    if j < |asks| {
      assert Elsewhere(asks[j], s, |tab|);
      LookupGrows(tab, times, tab', times', i, asks[j]);
      if Lookup(tab, times, i, asks[j]).Got? {
        GatherGrows(asks, s, tab, times, tab', times', i, j + 1);
      }
    }
  }

  // ---------------------------------------------------------------- when a read can be answered

  function Max(a: int, b: int): int {
    if a > b then a else b
  }

  // How many samples after its own an entry can be read, `done` being the
  // signals computed earlier in the round.
  function Lag(done: set<nat>, r: Request): int {
    match r
    case Return(_) => 0
    case Get(t, offset) => offset + (if t in done then 0 else 1)
    case Slice(t, from, to) => Max(from, to) + (if t in done then 0 else 1)
    case Clocked(_, offset) => offset
  }

  predicate NoWait(done: set<nat>, asks: seq<Request>) {
    forall k :: 0 <= k < |asks| ==> Lag(done, asks[k]) <= 0
  }

  function MaxLag(done: set<nat>, asks: seq<Request>): (d: nat)
    ensures forall k :: 0 <= k < |asks| ==> Lag(done, asks[k]) <= d
    ensures d > 0 ==> exists k :: 0 <= k < |asks| && Lag(done, asks[k]) == d
  {
    if asks == [] then 0
    else
      var d := MaxLag(done, asks[1..]);
      assert forall k :: 1 <= k < |asks| ==> asks[k] == asks[1..][k - 1];
      assert forall k :: 0 <= k < |asks[1..]| ==> asks[1..][k] == asks[k + 1];
      Max(Lag(done, asks[0]), d)
  }

  function SourceValue(f: Formula, raw: Value): Value {
    if Ask(f, raw, []).Return? then Ask(f, raw, []).value else Missing
  }

  function SourceColumn(prog: Program, t: nat, samples: seq<Sample>): (c: seq<Value>)
    requires Fits(prog, samples) && t < |prog|
    ensures |c| == |samples|
    ensures forall j :: 0 <= j < |c| ==> c[j] == SourceValue(prog[t], samples[j].raws[t])
  {
    seq(|samples|, j requires 0 <= j < |samples| => SourceValue(prog[t], samples[j].raws[t]))
  }

  lemma SourcePrefix(prog: Program, t: nat, samples: seq<Sample>, m: nat)
    requires Fits(prog, samples) && t < |prog| && m <= |samples|
    ensures Fits(prog, samples[..m]) && SourceColumn(prog, t, samples[..m]) == SourceColumn(prog, t, samples)[..m]
  {
  }

  // The signals in `done` have an entry for every sample, the others except s
  // for all but the newest.
  predicate Shape(prog: Program, s: nat, samples: seq<Sample>, done: set<nat>, tab: Table)
    requires Fits(prog, samples) && samples != []
  {
    && |tab| == |prog|
    && forall t :: 0 <= t < |prog| && t != s ==>
         tab[t] == SourceColumn(prog, t, samples)[..if t in done then |samples| else |samples| - 1]
  }

  // No entry before the first is asked for.
  predicate Reaches(r: Request, i: nat) {
    match r
    case Return(_) => false
    case Get(_, offset) => i + offset >= 0
    case Slice(_, from, to) => i + from >= 0 && i + to >= 0
    case Clocked(_, offset) => i + offset >= 0
  }

  lemma ReadReady(prog: Program, s: nat, samples: seq<Sample>, done: set<nat>, tab: Table, r: Request, i: nat)
    requires Fits(prog, samples) && samples != [] && Shape(prog, s, samples, done, tab)
    requires Elsewhere(r, s, |prog|) && i + Lag(done, r) < |samples|
    ensures !Lookup(tab, Times(samples), i, r).NotYet?
  {
  }

  lemma ReadBlocked(prog: Program, s: nat, samples: seq<Sample>, done: set<nat>, tab: Table, r: Request, i: nat)
    requires Fits(prog, samples) && samples != [] && Shape(prog, s, samples, done, tab)
    requires Elsewhere(r, s, |prog|) && Reaches(r, i)
    ensures Lookup(tab, Times(samples), i, r).NotYet? <==> i + Lag(done, r) >= |samples|
    ensures !Lookup(tab, Times(samples), i, r).TooOld?
  {
  }

  lemma {:induction false} GatherReady(prog: Program, s: nat, samples: seq<Sample>, done: set<nat>, tab: Table,
                                       asks: seq<Request>, i: nat, j: nat)
    requires Fits(prog, samples) && samples != [] && Shape(prog, s, samples, done, tab)
    requires AllElsewhere(asks, s, |prog|) && j <= |asks|
    requires forall k :: 0 <= k < |asks| ==> i + Lag(done, asks[k]) < |samples|
    ensures !Gather(asks, s, tab, Times(samples), i, j).Later?
    decreases |asks| - j
  {
    if j < |asks| {
      ReadReady(prog, s, samples, done, tab, asks[j], i);
      GatherReady(prog, s, samples, done, tab, asks, i, j + 1);
    }
  }

  lemma {:induction false} GatherBlocked(prog: Program, s: nat, samples: seq<Sample>, done: set<nat>, tab: Table,
                                         asks: seq<Request>, i: nat, j: nat, k: nat)
    requires Fits(prog, samples) && samples != [] && Shape(prog, s, samples, done, tab)
    requires AllElsewhere(asks, s, |prog|) && j <= k < |asks|
    requires forall l :: 0 <= l < |asks| ==> Reaches(asks[l], i)
    requires i + Lag(done, asks[k]) >= |samples|
    ensures Gather(asks, s, tab, Times(samples), i, j) == Later
    decreases k - j
  {
    ReadBlocked(prog, s, samples, done, tab, asks[j], i);
    if j < k {
      GatherBlocked(prog, s, samples, done, tab, asks, i, j + 1, k);
    }
  }

  lemma {:induction false} GatheredReaches(asks: seq<Request>, s: nat, tab: Table, times: seq<real>, i: nat, j: nat)
    requires j <= |asks| && AllElsewhere(asks, s, |tab|) && Gather(asks, s, tab, times, i, j).All?
    ensures forall k :: j <= k < |asks| ==> Reaches(asks[k], i)
    decreases |asks| - j
  {
    if j < |asks| {
      assert Elsewhere(asks[j], s, |tab|);
      GatheredReaches(asks, s, tab, times, i, j + 1);
    }
  }

  // ---------------------------------------------------------------- a round

  lemma DrainSource(prog: Program, s: nat, asks: seq<Request>, g: Result, samples: seq<Sample>, done: set<nat>,
                    tab: Table, t: nat)
    requires Setting(prog, s, asks, g) && Fits(prog, samples) && samples != []
    requires Shape(prog, s, samples, done, tab) && t < |prog| && t != s
    ensures var r := Drain(prog, samples[|samples| - 1].raws[t], Times(samples), tab, t);
            Shape(prog, s, samples, done + {t}, r) && r[s] == tab[s]
  {
    var raw, times, column := samples[|samples| - 1].raws[t], Times(samples), SourceColumn(prog, t, samples);
    assert Immediate(prog[t]);
    if |tab[t]| < |times| {
      var v := SourceValue(prog[t], raw);
      assert Evaluate(prog[t], raw, tab, times, |tab[t]|, []) == Done(v);
      assert tab[t] + [v] == column;
      assert Drain(prog, raw, times, tab[t := column], t) == tab[t := column];
    }
  }

  lemma {:induction false} PassSources(prog: Program, s: nat, asks: seq<Request>, g: Result, samples: seq<Sample>,
                                       done: set<nat>, tab: Table, order: seq<nat>)
    requires Setting(prog, s, asks, g) && Fits(prog, samples) && samples != []
    requires Shape(prog, s, samples, done, tab) && Lists(order, |prog|) && s !in order
    ensures var r := Pass(prog, samples[|samples| - 1].raws, Times(samples), tab, order);
            Shape(prog, s, samples, done + SetOf(order), r) && r[s] == tab[s]
    decreases order
  {
    if order == [] {
      assert done + SetOf(order) == done;
    } else {
      var t, raws := order[0], samples[|samples| - 1].raws;
      DrainSource(prog, s, asks, g, samples, done, tab, t);
      PassSources(prog, s, asks, g, samples, done + {t}, Drain(prog, raws[t], Times(samples), tab, t), order[1..]);
      assert order == [t] + order[1..];
      assert done + {t} + SetOf(order[1..]) == done + SetOf(order);
    }
  }

  function SetOf(order: seq<nat>): set<nat> {
    set t | t in order
  }

  lemma {:induction false} PassJoin(prog: Program, raws: seq<Value>, times: seq<real>, tab: Table, a: seq<nat>,
                                    b: seq<nat>)
    requires WellFormed(prog) && |tab| == |prog| == |raws| && Lists(a, |prog|) && Lists(b, |prog|) && Lists(a + b, |prog|)
    ensures Pass(prog, raws, times, tab, a + b) == Pass(prog, raws, times, Pass(prog, raws, times, tab, a), b)
    decreases a
  {
    if a == [] {
      assert a + b == b;
    } else {
      assert (a + b)[1..] == a[1..] + b;
      PassJoin(prog, raws, times, Drain(prog, raws[a[0]], times, tab, a[0]), a[1..], b);
    }
  }

  // Signal s is listed once, after the signals `pre` and before the others.
  predicate Placed(n: nat, s: nat, pre: seq<nat>, post: seq<nat>) {
    ListsAll(pre + [s] + post, n) && s !in pre && s !in post
  }

  // The table when signal s is evaluated with the newest sample.
  function Midway(prog: Program, samples: seq<Sample>, before: Table, pre: seq<nat>): Table
    requires WellFormed(prog) && Fits(prog, samples) && samples != [] && |before| == |prog| && Lists(pre, |prog|)
  {
    Pass(prog, samples[|samples| - 1].raws, Times(samples), before, pre)
  }

  lemma PlacedLists(n: nat, s: nat, pre: seq<nat>, post: seq<nat>)
    requires Placed(n, s, pre, post)
    ensures s < n && Lists(pre, n) && Lists(post, n)
    ensures forall t :: 0 <= t < n && t != s ==> t in SetOf(pre) + SetOf(post)
  {
    var order := pre + [s] + post;
    assert order[|pre|] == s;
    assert forall k :: 0 <= k < |pre| ==> pre[k] == order[k];
    assert forall k :: 0 <= k < |post| ==> post[k] == order[|pre| + 1 + k];
    forall t | 0 <= t < n && t != s
      ensures t in SetOf(pre) + SetOf(post)
    {
      assert t in order;
      var k :| 0 <= k < |order| && order[k] == t;
      assert t == if k < |pre| then pre[k] else post[k - |pre| - 1];
    }
  }

  // One sample: the signals before s, then s, then the others.
  lemma RoundOf(prog: Program, s: nat, asks: seq<Request>, g: Result, samples: seq<Sample>, before: Table,
                pre: seq<nat>, post: seq<nat>)
    requires Setting(prog, s, asks, g) && Fits(prog, samples) && samples != []
    requires Placed(|prog|, s, pre, post) && Lists(pre, |prog|) && Shape(prog, s, samples, {}, before)
    ensures var raws, mid := samples[|samples| - 1].raws, Midway(prog, samples, before, pre);
            var after := Drain(prog, raws[s], Times(samples), mid, s);
            var end := Pass(prog, raws, Times(samples), before, pre + [s] + post);
            && Shape(prog, s, samples, SetOf(pre), mid) && mid[s] == before[s]
            && end[s] == after[s] && Complete(end, s, prog, samples)
  {
    var raws, times, mid := samples[|samples| - 1].raws, Times(samples), Midway(prog, samples, before, pre);
    PlacedLists(|prog|, s, pre, post);
    PassSources(prog, s, asks, g, samples, {}, before, pre);
    assert {} + SetOf(pre) == SetOf(pre);
    var after := Drain(prog, raws[s], times, mid, s);
    assert Lists(pre + [s], |prog|);
    PassJoin(prog, raws, times, before, pre + [s], post);
    PassJoin(prog, raws, times, before, pre, [s]);
    assert [s][1..] == [];
    assert Pass(prog, raws, times, mid, [s]) == after;
    DrainOff(prog, raws[s], times, mid, s);
    PassSources(prog, s, asks, g, samples, SetOf(pre), after, post);
  }

  // Every signal but s has all its entries.
  predicate Complete(tab: Table, s: nat, prog: Program, samples: seq<Sample>)
    requires Fits(prog, samples)
  {
    |tab| == |prog| && forall t :: 0 <= t < |prog| && t != s ==> tab[t] == SourceColumn(prog, t, samples)
  }

  lemma {:induction false} DrainOff(prog: Program, raw: Value, times: seq<real>, tab: Table, s: nat)
    requires WellFormed(prog) && |tab| == |prog| && s < |prog|
    ensures forall t :: 0 <= t < |tab| && t != s ==> Drain(prog, raw, times, tab, s)[t] == tab[t]
    decreases |times| - |tab[s]|
  {
    if |tab[s]| < |times| {
      var outcome := Evaluate(prog[s], raw, tab, times, |tab[s]|, []);
      if outcome.Done? {
        DrainOff(prog, raw, times, tab[s := tab[s] + [outcome.value]], s);
      }
    }
  }

  lemma {:induction false} StreamComplete(prog: Program, s: nat, asks: seq<Request>, g: Result, samples: seq<Sample>,
                                          pre: seq<nat>, post: seq<nat>)
    requires Setting(prog, s, asks, g) && Fits(prog, samples) && Placed(|prog|, s, pre, post)
    ensures Complete(Stream(prog, samples, pre + [s] + post), s, prog, samples)
  {
    if samples != [] {
      var init := samples[..|samples| - 1];
      StreamComplete(prog, s, asks, g, init, pre, post);
      StreamShape(prog, s, asks, g, samples, pre, post);
      PlacedLists(|prog|, s, pre, post);
      RoundOf(prog, s, asks, g, samples, Stream(prog, init, pre + [s] + post), pre, post);
    }
  }

  lemma StreamShape(prog: Program, s: nat, asks: seq<Request>, g: Result, samples: seq<Sample>, pre: seq<nat>,
                    post: seq<nat>)
    requires Setting(prog, s, asks, g) && Fits(prog, samples) && samples != [] && Placed(|prog|, s, pre, post)
    requires Complete(Stream(prog, samples[..|samples| - 1], pre + [s] + post), s, prog, samples[..|samples| - 1])
    ensures Shape(prog, s, samples, {}, Stream(prog, samples[..|samples| - 1], pre + [s] + post))
  {
    forall t | 0 <= t < |prog| && t != s
      ensures SourceColumn(prog, t, samples[..|samples| - 1]) == SourceColumn(prog, t, samples)[..|samples| - 1]
    {
      SourcePrefix(prog, t, samples, |samples| - 1);
    }
  }

  // The table before signal s is evaluated with the newest sample, and what its
  // evaluation makes of its column.
  lemma LastRound(prog: Program, s: nat, asks: seq<Request>, g: Result, samples: seq<Sample>, pre: seq<nat>,
                  post: seq<nat>)
      returns (mid: Table)
    requires Setting(prog, s, asks, g) && Fits(prog, samples) && samples != [] && Placed(|prog|, s, pre, post)
    ensures Shape(prog, s, samples, SetOf(pre), mid)
    ensures mid[s] == Stream(prog, samples[..|samples| - 1], pre + [s] + post)[s] && |mid[s]| < |samples|
    ensures Stream(prog, samples, pre + [s] + post)[s]
         == Drain(prog, samples[|samples| - 1].raws[s], Times(samples), mid, s)[s]
  {
    var init, order := samples[..|samples| - 1], pre + [s] + post;
    PlacedLists(|prog|, s, pre, post);
    StreamComplete(prog, s, asks, g, init, pre, post);
    StreamShape(prog, s, asks, g, samples, pre, post);
    StreamBounded(prog, init, order);
    RoundOf(prog, s, asks, g, samples, Stream(prog, init, order), pre, post);
    mid := Midway(prog, samples, Stream(prog, init, order), pre);
  }

  // ---------------------------------------------------------------- how far a signal gets

  lemma {:induction false} DrainStops(prog: Program, s: nat, asks: seq<Request>, g: Result, raw: Value,
                                      times: seq<real>, tab: Table, i: nat)
    requires Setting(prog, s, asks, g) && |tab| == |prog| && |tab[s]| <= i
    requires Gather(asks, s, tab, times, i, 0) == Later
    ensures |Drain(prog, raw, times, tab, s)[s]| <= i
    decreases |times| - |tab[s]|
  {
    if |tab[s]| < |times| {
      var outcome := Evaluate(prog[s], raw, tab, times, |tab[s]|, []);
      EvaluateGathers(prog[s], s, asks, g, raw, tab, times, |tab[s]|, []);
      if outcome.Done? {
        var tab' := tab[s := tab[s] + [outcome.value]];
        GatherOff(asks, s, tab, tab', times, i, 0);
        DrainStops(prog, s, asks, g, raw, times, tab', i);
      }
    }
  }

  lemma {:induction false} DrainReaches(prog: Program, s: nat, asks: seq<Request>, g: Result, raw: Value,
                                        times: seq<real>, tab: Table, target: nat)
    requires Setting(prog, s, asks, g) && |tab| == |prog| && |tab[s]| <= |times| && target <= |times|
    requires forall j :: 0 <= j < target ==> !Gather(asks, s, tab, times, j, 0).Later?
    ensures |Drain(prog, raw, times, tab, s)[s]| >= target
    decreases |times| - |tab[s]|
  {
    DrainGrows(prog, raw, times, tab, s);
    if |tab[s]| < target {
      var outcome := Evaluate(prog[s], raw, tab, times, |tab[s]|, []);
      EvaluateGathers(prog[s], s, asks, g, raw, tab, times, |tab[s]|, []);
      var tab' := tab[s := tab[s] + [outcome.value]];
      forall j | 0 <= j < target
        ensures !Gather(asks, s, tab', times, j, 0).Later?
      {
        GatherOff(asks, s, tab, tab', times, j, 0);
      }
      DrainReaches(prog, s, asks, g, raw, times, tab', target);
    }
  }

  lemma DrainFirst(prog: Program, s: nat, asks: seq<Request>, g: Result, raw: Value, times: seq<real>, tab: Table,
                   answers: seq<seq<Value>>)
    requires Setting(prog, s, asks, g) && |tab| == |prog| && |tab[s]| < |times|
    requires Gather(asks, s, tab, times, |tab[s]|, 0) == All(answers)
    ensures var column := Drain(prog, raw, times, tab, s)[s];
            |column| > |tab[s]| && column[|tab[s]|] == g(raw, answers)
  {
    var v, i := g(raw, answers), |tab[s]|;
    EvaluateGathers(prog[s], s, asks, g, raw, tab, times, i, []);
    assert [] + answers == answers;
    var tab' := tab[s := tab[s] + [v]];
    DrainGrows(prog, raw, times, tab', s);
    assert tab'[s] <= Drain(prog, raw, times, tab', s)[s];
  }

  // Signal s is never more than its longest lag behind.
  lemma KeepsUp(prog: Program, s: nat, asks: seq<Request>, g: Result, samples: seq<Sample>, pre: seq<nat>,
                post: seq<nat>)
    requires Setting(prog, s, asks, g) && Fits(prog, samples) && Placed(|prog|, s, pre, post)
    ensures |Stream(prog, samples, pre + [s] + post)[s]| + MaxLag(SetOf(pre), asks) >= |samples|
  {
    var d := MaxLag(SetOf(pre), asks);
    if |samples| > d {
      var mid := LastRound(prog, s, asks, g, samples, pre, post);
      var target := |samples| - d;
      forall j | 0 <= j < target
        ensures !Gather(asks, s, mid, Times(samples), j, 0).Later?
      {
        GatherReady(prog, s, samples, SetOf(pre), mid, asks, j, 0);
      }
      DrainReaches(prog, s, asks, g, samples[|samples| - 1].raws[s], Times(samples), mid, target);
    }
  }

  // An entry waits for its longest lag.
  lemma {:induction false} Waits(prog: Program, s: nat, asks: seq<Request>, g: Result, samples: seq<Sample>,
                                 pre: seq<nat>, post: seq<nat>, i: nat)
    requires Setting(prog, s, asks, g) && Fits(prog, samples) && Placed(|prog|, s, pre, post)
    requires forall k :: 0 <= k < |asks| ==> Reaches(asks[k], i)
    requires MaxLag(SetOf(pre), asks) > 0 && |samples| <= i + MaxLag(SetOf(pre), asks)
    ensures |Stream(prog, samples, pre + [s] + post)[s]| <= i
  {
    if samples != [] {
      var d := MaxLag(SetOf(pre), asks);
      var mid := LastRound(prog, s, asks, g, samples, pre, post);
      Waits(prog, s, asks, g, samples[..|samples| - 1], pre, post, i);
      var k :| 0 <= k < |asks| && Lag(SetOf(pre), asks[k]) == d;
      GatherBlocked(prog, s, samples, SetOf(pre), mid, asks, i, 0, k);
      DrainStops(prog, s, asks, g, samples[|samples| - 1].raws[s], Times(samples), mid, i);
    }
  }

  // ---------------------------------------------------------------- exactly when every entry is right

  // The entries of the other signals.
  function Sources(prog: Program, s: nat, samples: seq<Sample>): (tab: Table)
    requires Fits(prog, samples)
    ensures |tab| == |prog|
  {
    seq(|prog|, t requires 0 <= t < |prog| => if t == s then [] else SourceColumn(prog, t, samples))
  }

  // For each signal the raw values a sample can hold.
  type Cells = seq<iset<Value>>

  // The no-signal mark can be in any column.  A signal without a column has no
  // other raw value.
  ghost predicate Markable(prog: Program, cells: Cells) {
    |cells| == |prog| && forall t :: 0 <= t < |cells| ==> Missing in cells[t]
  }

  // Samples as the program receives them.
  ghost predicate Real(prog: Program, cells: Cells, samples: seq<Sample>)
    requires Markable(prog, cells)
  {
    && Fits(prog, samples)
    && (forall k :: 0 <= k < |samples| ==> samples[k].time >= 0.5)
    && (forall k :: 0 < k < |samples| ==> samples[k - 1].time < samples[k].time)
    && (forall k, t :: 0 <= k < |samples| && 0 <= t < |prog| ==> samples[k].raws[t] in cells[t])
  }

  // The result does not depend on the raw value for the answers that the reads
  // get at entry i of these samples.
  ghost predicate BlindAt(prog: Program, s: nat, asks: seq<Request>, g: Result, cells: Cells, samples: seq<Sample>,
                          i: nat)
    requires Setting(prog, s, asks, g) && Fits(prog, samples) && |cells| == |prog|
  {
    match Gather(asks, s, Sources(prog, s, samples), Times(samples), i, 0)
    case All(answers) => forall raw, raw' :: raw in cells[s] && raw' in cells[s] ==> g(raw, answers) == g(raw', answers)
    case Old => true
    case Later => true
  }

  // Nor for any answers the reads can get.
  ghost predicate Blind(prog: Program, s: nat, asks: seq<Request>, g: Result, cells: Cells)
    requires Setting(prog, s, asks, g) && Markable(prog, cells)
  {
    forall samples, i: nat :: Real(prog, cells, samples) ==> BlindAt(prog, s, asks, g, cells, samples, i)
  }

  ghost predicate RightIn(prog: Program, samples: seq<Sample>, order: seq<nat>)
    requires WellFormed(prog) && ListsAll(order, |prog|) && Fits(prog, samples)
  {
    AllRight(prog, samples, Stream(prog, samples, order), Times(samples))
  }

  ghost predicate ColumnRight(prog: Program, samples: seq<Sample>, tab: Table, s: nat)
    requires WellFormed(prog) && Fits(prog, samples) && |tab| == |prog| && s < |prog|
  {
    forall i :: 0 <= i < |tab[s]| && i < |samples| ==>
      Evaluate(prog[s], samples[i].raws[s], tab, Times(samples), i, []) == Done(tab[s][i])
  }

  // Entries of the other signals are right; what signal s needs is that its
  // entries are.
  lemma OthersRight(prog: Program, s: nat, asks: seq<Request>, g: Result, samples: seq<Sample>, pre: seq<nat>,
                    post: seq<nat>)
    requires Setting(prog, s, asks, g) && Fits(prog, samples) && Placed(|prog|, s, pre, post)
    requires ColumnRight(prog, samples, Stream(prog, samples, pre + [s] + post), s)
    ensures RightIn(prog, samples, pre + [s] + post)
  {
    var order := pre + [s] + post;
    var tab := Stream(prog, samples, order);
    StreamBounded(prog, samples, order);
    StreamComplete(prog, s, asks, g, samples, pre, post);
    forall t, i | 0 <= t < |tab| && 0 <= i < |tab[t]|
      ensures Right(prog, samples, tab, Times(samples), t, i)
    {
      if t != s {
        var raw := samples[i].raws[t];
        assert Immediate(prog[t]) && tab[t] == SourceColumn(prog, t, samples);
        assert Ask(prog[t], raw, []) == Return(SourceValue(prog[t], raw));
        assert Evaluate(prog[t], raw, tab, Times(samples), i, []) == Done(tab[t][i]);
      } else {
        assert |tab[s]| <= |samples|;
        assert Evaluate(prog[s], samples[i].raws[s], tab, Times(samples), i, []) == Done(tab[s][i]);
      }
    }
  }

  lemma OwnColumn(prog: Program, s: nat, asks: seq<Request>, g: Result, samples: seq<Sample>, pre: seq<nat>,
                  post: seq<nat>,
                  i: nat)
    requires Setting(prog, s, asks, g) && Fits(prog, samples) && Placed(|prog|, s, pre, post)
    ensures Gather(asks, s, Stream(prog, samples, pre + [s] + post), Times(samples), i, 0)
         == Gather(asks, s, Sources(prog, s, samples), Times(samples), i, 0)
  {
    StreamComplete(prog, s, asks, g, samples, pre, post);
    GatherOff(asks, s, Sources(prog, s, samples), Stream(prog, samples, pre + [s] + post), Times(samples), i, 0);
  }

  lemma BlindIsRight(prog: Program, s: nat, asks: seq<Request>, g: Result, cells: Cells, samples: seq<Sample>,
                     pre: seq<nat>, post: seq<nat>)
    requires Setting(prog, s, asks, g) && Markable(prog, cells) && Placed(|prog|, s, pre, post)
    requires Real(prog, cells, samples) && Blind(prog, s, asks, g, cells)
    ensures RightIn(prog, samples, pre + [s] + post)
  {
    var order := pre + [s] + post;
    var tab, times := Stream(prog, samples, order), Times(samples);
    PlacedLists(|prog|, s, pre, post);
    StreamExplained(prog, samples, order);
    forall i | 0 <= i < |tab[s]| && i < |samples|
      ensures Evaluate(prog[s], samples[i].raws[s], tab, times, i, []) == Done(tab[s][i])
    {
      assert HasRaw(prog, samples, tab, times, s, i);
      var k :| i <= k < |samples| && Evaluate(prog[s], samples[k].raws[s], tab, times, i, []) == Done(tab[s][i]);
      EvaluateGathers(prog[s], s, asks, g, samples[k].raws[s], tab, times, i, []);
      EvaluateGathers(prog[s], s, asks, g, samples[i].raws[s], tab, times, i, []);
      OwnColumn(prog, s, asks, g, samples, pre, post, i);
      assert BlindAt(prog, s, asks, g, cells, samples, i);
      var more := Gather(asks, s, tab, times, i, 0);
      if more.All? {
        assert [] + more.answers == more.answers;
      }
    }
    OthersRight(prog, s, asks, g, samples, pre, post);
  }

  lemma FirstGrows(prog: Program, samples: seq<Sample>, m: nat, order: seq<nat>)
    requires WellFormed(prog) && ListsAll(order, |prog|) && Fits(prog, samples) && m <= |samples|
    ensures Fits(prog, samples[..m]) && Grows(Stream(prog, samples[..m], order), Stream(prog, samples, order))
  {
    assert samples[..m] + samples[m..] == samples;
    StreamGrows(prog, samples[..m], samples[m..], order);
  }

  lemma TimesGrow(samples: seq<Sample>, m: nat)
    requires m <= |samples|
    ensures Times(samples[..m]) <= Times(samples)
  {
  }

  // Without waiting an entry is computed with its own sample.
  lemma PunctualEntry(prog: Program, s: nat, asks: seq<Request>, g: Result, samples: seq<Sample>, pre: seq<nat>,
                      post: seq<nat>, i: nat)
    requires Setting(prog, s, asks, g) && Fits(prog, samples) && Placed(|prog|, s, pre, post)
    requires NoWait(SetOf(pre), asks) && i < |samples| && i < |Stream(prog, samples, pre + [s] + post)[s]|
    ensures var tab := Stream(prog, samples, pre + [s] + post);
            Evaluate(prog[s], samples[i].raws[s], tab, Times(samples), i, []) == Done(tab[s][i])
  {
    var order := pre + [s] + post;
    var tab, first := Stream(prog, samples, order), samples[..i + 1];
    var early := Stream(prog, first, order);
    PlacedLists(|prog|, s, pre, post);
    OwnSample(prog, s, asks, g, first, pre, post, i);
    FirstGrows(prog, samples, i + 1, order);
    TimesGrow(samples, i + 1);
    assert early[s] <= tab[s];
    EvaluateGrows(prog[s], samples[i].raws[s], early, Times(first), tab, Times(samples), i, []);
  }

  // The newest entry.
  lemma OwnSample(prog: Program, s: nat, asks: seq<Request>, g: Result, samples: seq<Sample>, pre: seq<nat>,
                  post: seq<nat>, i: nat)
    requires Setting(prog, s, asks, g) && Fits(prog, samples) && Placed(|prog|, s, pre, post)
    requires NoWait(SetOf(pre), asks) && |samples| == i + 1
    ensures var tab := Stream(prog, samples, pre + [s] + post);
            i < |tab[s]| && Evaluate(prog[s], samples[i].raws[s], tab, Times(samples), i, []) == Done(tab[s][i])
  {
    var order := pre + [s] + post;
    PlacedLists(|prog|, s, pre, post);
    KeepsUp(prog, s, asks, g, samples, pre, post);
    StreamExplained(prog, samples, order);
    assert HasRaw(prog, samples, Stream(prog, samples, order), Times(samples), s, i);
  }

  lemma PunctualIsRight(prog: Program, s: nat, asks: seq<Request>, g: Result, samples: seq<Sample>, pre: seq<nat>,
                        post: seq<nat>)
    requires Setting(prog, s, asks, g) && Fits(prog, samples) && Placed(|prog|, s, pre, post)
    requires NoWait(SetOf(pre), asks)
    ensures RightIn(prog, samples, pre + [s] + post)
  {
    var tab := Stream(prog, samples, pre + [s] + post);
    forall i | 0 <= i < |tab[s]| && i < |samples|
      ensures Evaluate(prog[s], samples[i].raws[s], tab, Times(samples), i, []) == Done(tab[s][i])
    {
      PunctualEntry(prog, s, asks, g, samples, pre, post, i);
    }
    OthersRight(prog, s, asks, g, samples, pre, post);
  }

  // These samples, cut or filled up to n, with the raw values of signal s
  // replaced: one for entry i, another for all others.
  predicate Altered(prog: Program, s: nat, base: seq<Sample>, n: nat, i: nat, raw: Value, other: Value,
                    samples: seq<Sample>)
    requires Fits(prog, base) && s < |prog|
  {
    && |samples| == n && Fits(prog, samples)
    && (forall k :: 0 <= k < n ==> samples[k].raws[s] == if k == i then raw else other)
    && Agree(prog, s, base, samples, if |base| < n then |base| else n)
  }

  // Up to m the samples differ in signal s alone.
  predicate Agree(prog: Program, s: nat, a: seq<Sample>, b: seq<Sample>, m: nat)
    requires Fits(prog, a) && Fits(prog, b) && m <= |a| && m <= |b|
  {
    forall k :: 0 <= k < m ==>
      a[k].time == b[k].time && forall t :: 0 <= t < |prog| && t != s ==> a[k].raws[t] == b[k].raws[t]
  }

  // One sample more.
  lemma RealNext(prog: Program, cells: Cells, samples: seq<Sample>, last: Sample)
    requires Markable(prog, cells) && Real(prog, cells, samples) && |last.raws| == |prog|
    requires last.time >= 0.5 && (samples != [] ==> samples[|samples| - 1].time < last.time)
    requires forall t :: 0 <= t < |prog| ==> last.raws[t] in cells[t]
    ensures Real(prog, cells, samples + [last])
  {
  }

  lemma AlteredNext(prog: Program, s: nat, base: seq<Sample>, n: nat, i: nat, raw: Value, other: Value,
                    samples: seq<Sample>, x: Sample)
    requires Fits(prog, base) && s < |prog| && Altered(prog, s, base, n, i, raw, other, samples)
    requires |x.raws| == |prog| && (n < |base| ==> x == base[n])
    ensures var last := Sample(x.time, x.raws[s := if n == i then raw else other]);
            Altered(prog, s, base, n + 1, i, raw, other, samples + [last])
  {
  }

  lemma {:induction false} Alter(prog: Program, s: nat, cells: Cells, base: seq<Sample>, n: nat, i: nat, raw: Value,
                                 other: Value)
      returns (samples: seq<Sample>)
    requires s < |prog| && Markable(prog, cells) && Real(prog, cells, base) && raw in cells[s] && other in cells[s]
    ensures Real(prog, cells, samples) && Altered(prog, s, base, n, i, raw, other, samples)
  {
    if n == 0 {
      samples := [];
    } else {
      var before := Alter(prog, s, cells, base, n - 1, i, raw, other);
      var next := if before == [] then 1.0 else before[n - 2].time + 1.0;
      var x := if n <= |base| then base[n - 1] else Sample(next, seq(|prog|, t => Missing));
      assert before != [] && n <= |base| ==> before[n - 2].time == base[n - 2].time;
      var last := Sample(x.time, x.raws[s := if n - 1 == i then raw else other]);
      RealNext(prog, cells, before, last);
      AlteredNext(prog, s, base, n - 1, i, raw, other, before, x);
      samples := before + [last];
    }
  }

  // Samples that agree off signal s show the same to the reads.
  lemma SameSources(prog: Program, s: nat, a: seq<Sample>, b: seq<Sample>, m: nat)
    requires Fits(prog, a) && Fits(prog, b) && m <= |a| && m <= |b| && Agree(prog, s, a, b, m)
    ensures Fits(prog, a[..m]) && Fits(prog, b[..m])
    ensures Sources(prog, s, a[..m]) == Sources(prog, s, b[..m]) && Times(a[..m]) == Times(b[..m])
  {
    forall t | 0 <= t < |prog| && t != s
      ensures SourceColumn(prog, t, a[..m]) == SourceColumn(prog, t, b[..m])
    {
    }
  }

  // More samples do not change what the reads have got.
  lemma PrefixGathers(prog: Program, s: nat, asks: seq<Request>, samples: seq<Sample>, m: nat, i: nat)
    requires Fits(prog, samples) && AllElsewhere(asks, s, |prog|) && m <= |samples|
    requires Fits(prog, samples[..m])
    requires !Gather(asks, s, Sources(prog, s, samples[..m]), Times(samples[..m]), i, 0).Later?
    ensures Gather(asks, s, Sources(prog, s, samples), Times(samples), i, 0)
         == Gather(asks, s, Sources(prog, s, samples[..m]), Times(samples[..m]), i, 0)
  {
    var tab, tab' := Sources(prog, s, samples[..m]), Sources(prog, s, samples);
    forall t | 0 <= t < |prog|
      ensures tab[t] <= tab'[t]
    {
      if t != s {
        SourcePrefix(prog, t, samples, m);
      }
    }
    GatherGrows(asks, s, tab, Times(samples[..m]), tab', Times(samples), i, 0);
  }

  function Everyone(n: nat): (r: set<nat>)
    ensures forall t: nat :: t in r <==> t < n
  {
    if n == 0 then {} else Everyone(n - 1) + {n - 1}
  }

  // With enough samples the reads are not delayed.
  lemma EnoughGathers(prog: Program, s: nat, asks: seq<Request>, done: set<nat>, samples: seq<Sample>, i: nat)
    requires Fits(prog, samples) && AllElsewhere(asks, s, |prog|) && |samples| > i + MaxLag(done, asks)
    ensures !Gather(asks, s, Sources(prog, s, samples), Times(samples), i, 0).Later?
  {
    var all := Everyone(|prog|);
    var tab := Sources(prog, s, samples);
    forall t | 0 <= t < |prog| && t != s
      ensures tab[t] == SourceColumn(prog, t, samples)[..|samples|]
    {
    }
    assert Shape(prog, s, samples, all, tab);
    forall k | 0 <= k < |asks|
      ensures i + Lag(all, asks[k]) < |samples|
    {
      assert Elsewhere(asks[k], s, |prog|);
      assert Lag(all, asks[k]) <= Lag(done, asks[k]) <= MaxLag(done, asks);
    }
    GatherReady(prog, s, samples, all, tab, asks, i, 0);
  }

  // The altered samples give the reads of entry i the same answers.
  lemma AlteredGathers(prog: Program, s: nat, asks: seq<Request>, done: set<nat>, base: seq<Sample>, i: nat,
                       raw: Value, other: Value, samples: seq<Sample>)
    requires Fits(prog, base) && AllElsewhere(asks, s, |prog|) && s < |prog|
    requires Gather(asks, s, Sources(prog, s, base), Times(base), i, 0).All?
    requires Altered(prog, s, base, i + MaxLag(done, asks) + 1, i, raw, other, samples)
    ensures Gather(asks, s, Sources(prog, s, samples), Times(samples), i, 0)
         == Gather(asks, s, Sources(prog, s, base), Times(base), i, 0)
  {
    var n := |samples|;
    var m := if |base| < n then |base| else n;
    SameSources(prog, s, base, samples, m);
    if m < n {
      assert base[..m] == base;
      PrefixGathers(prog, s, asks, samples, m, i);
    } else {
      assert samples[..m] == samples;
      EnoughGathers(prog, s, asks, done, samples, i);
      PrefixGathers(prog, s, asks, base, m, i);
    }
  }

  // Just before, that entry is the oldest delayed one.
  lemma WaitedSoLong(prog: Program, s: nat, asks: seq<Request>, g: Result, samples: seq<Sample>, pre: seq<nat>,
                     post: seq<nat>, i: nat)
    requires Setting(prog, s, asks, g) && Fits(prog, samples) && Placed(|prog|, s, pre, post)
    requires forall k :: 0 <= k < |asks| ==> Reaches(asks[k], i)
    requires MaxLag(SetOf(pre), asks) > 0 && |samples| == i + MaxLag(SetOf(pre), asks)
    ensures |Stream(prog, samples, pre + [s] + post)[s]| == i
  {
    KeepsUp(prog, s, asks, g, samples, pre, post);
    Waits(prog, s, asks, g, samples, pre, post, i);
  }

  // An entry that had to wait is computed from the raw value of the sample it
  // waited for.
  lemma TakesLaterRaw(prog: Program, s: nat, asks: seq<Request>, g: Result, samples: seq<Sample>, pre: seq<nat>,
                      post: seq<nat>,
                      i: nat, answers: seq<seq<Value>>)
    requires Setting(prog, s, asks, g) && Fits(prog, samples) && Placed(|prog|, s, pre, post)
    requires Gather(asks, s, Sources(prog, s, samples), Times(samples), i, 0) == All(answers)
    requires MaxLag(SetOf(pre), asks) > 0 && |samples| == i + MaxLag(SetOf(pre), asks) + 1
    ensures var column := Stream(prog, samples, pre + [s] + post)[s];
            |column| > i && column[i] == g(samples[|samples| - 1].raws[s], answers)
  {
    GatheredReaches(asks, s, Sources(prog, s, samples), Times(samples), i, 0);
    WaitedSoLong(prog, s, asks, g, samples[..|samples| - 1], pre, post, i);
    var mid := LastRound(prog, s, asks, g, samples, pre, post);
    NowGathers(prog, s, asks, samples, SetOf(pre), mid, i);
    DrainFirst(prog, s, asks, g, samples[|samples| - 1].raws[s], Times(samples), mid, answers);
  }

  lemma NowGathers(prog: Program, s: nat, asks: seq<Request>, samples: seq<Sample>, done: set<nat>, mid: Table, i: nat)
    requires Fits(prog, samples) && samples != [] && Shape(prog, s, samples, done, mid) && s < |prog|
    requires AllElsewhere(asks, s, |prog|) && |samples| == i + MaxLag(done, asks) + 1
    ensures Gather(asks, s, mid, Times(samples), i, 0) == Gather(asks, s, Sources(prog, s, samples), Times(samples), i, 0)
  {
    GatherReady(prog, s, samples, done, mid, asks, i, 0);
    MidGathers(prog, s, asks, samples, done, mid, i);
  }

  lemma MidGathers(prog: Program, s: nat, asks: seq<Request>, samples: seq<Sample>, done: set<nat>, mid: Table, i: nat)
    requires Fits(prog, samples) && samples != [] && Shape(prog, s, samples, done, mid) && s < |prog|
    requires AllElsewhere(asks, s, |prog|) && !Gather(asks, s, mid, Times(samples), i, 0).Later?
    ensures Gather(asks, s, Sources(prog, s, samples), Times(samples), i, 0) == Gather(asks, s, mid, Times(samples), i, 0)
  {
    var empty := mid[s := []];
    GatherOff(asks, s, mid, empty, Times(samples), i, 0);
    forall t | 0 <= t < |prog|
      ensures empty[t] <= Sources(prog, s, samples)[t]
    {
    }
    GatherGrows(asks, s, empty, Times(samples), Sources(prog, s, samples), Times(samples), i, 0);
  }

  // A formula that can wait and looks at its raw value goes wrong.
  lemma WaitingIsWrong(prog: Program, s: nat, asks: seq<Request>, g: Result, cells: Cells, pre: seq<nat>,
                      post: seq<nat>)
      returns (samples: seq<Sample>)
    requires Setting(prog, s, asks, g) && Markable(prog, cells) && Placed(|prog|, s, pre, post)
    requires !NoWait(SetOf(pre), asks) && !Blind(prog, s, asks, g, cells)
    ensures Real(prog, cells, samples) && !RightIn(prog, samples, pre + [s] + post)
  {
    var base, i: nat :| Real(prog, cells, base) && !BlindAt(prog, s, asks, g, cells, base, i);
    var answers := Gather(asks, s, Sources(prog, s, base), Times(base), i, 0).answers;
    var raw, other :| raw in cells[s] && other in cells[s] && g(raw, answers) != g(other, answers);
    samples := Alter(prog, s, cells, base, i + MaxLag(SetOf(pre), asks) + 1, i, raw, other);
    AlteredGathers(prog, s, asks, SetOf(pre), base, i, raw, other, samples);
    TakesLaterRaw(prog, s, asks, g, samples, pre, post, i, answers);
    OwnRawDiffers(prog, s, asks, g, samples, pre, post, i, answers);
  }

  lemma OwnRawDiffers(prog: Program, s: nat, asks: seq<Request>, g: Result, samples: seq<Sample>, pre: seq<nat>,
                      post: seq<nat>,
                      i: nat, answers: seq<seq<Value>>)
    requires Setting(prog, s, asks, g) && Fits(prog, samples) && Placed(|prog|, s, pre, post)
    requires i < |samples| && Gather(asks, s, Sources(prog, s, samples), Times(samples), i, 0) == All(answers)
    requires var column := Stream(prog, samples, pre + [s] + post)[s];
             |column| > i && column[i] != g(samples[i].raws[s], answers)
    ensures !RightIn(prog, samples, pre + [s] + post)
  {
    var tab := Stream(prog, samples, pre + [s] + post);
    OwnColumn(prog, s, asks, g, samples, pre, post, i);
    EvaluateGathers(prog[s], s, asks, g, samples[i].raws[s], tab, Times(samples), i, []);
    assert [] + answers == answers;
    assert !Right(prog, samples, tab, Times(samples), s, i);
  }

  // In this place among the signals every entry of every stream the program can
  // receive is right if and only if no read can make the formula wait, or its
  // result is blind to the raw value.
  lemma RightExactly(prog: Program, s: nat, asks: seq<Request>, g: Result, cells: Cells, pre: seq<nat>, post: seq<nat>)
    requires Setting(prog, s, asks, g) && Markable(prog, cells) && Placed(|prog|, s, pre, post)
    ensures (forall samples :: Real(prog, cells, samples) ==> RightIn(prog, samples, pre + [s] + post))
            <==> NoWait(SetOf(pre), asks) || Blind(prog, s, asks, g, cells)
  {
    if NoWait(SetOf(pre), asks) {
      forall samples | Real(prog, cells, samples)
        ensures RightIn(prog, samples, pre + [s] + post)
      {
        PunctualIsRight(prog, s, asks, g, samples, pre, post);
      }
    } else if Blind(prog, s, asks, g, cells) {
      forall samples | Real(prog, cells, samples)
        ensures RightIn(prog, samples, pre + [s] + post)
      {
        BlindIsRight(prog, s, asks, g, cells, samples, pre, post);
      }
    } else {
      var samples := WaitingIsWrong(prog, s, asks, g, cells, pre, post);
    }
  }

  function Others(n: nat, s: nat): seq<nat> {
    if n == 0 then [] else Others(n - 1, s) + if n - 1 == s then [] else [n - 1]
  }

  lemma {:induction false} OthersAre(n: nat, s: nat, t: nat)
    ensures t in Others(n, s) <==> t < n && t != s
  {
    if n > 0 {
      OthersAre(n - 1, s, t);
    }
  }

  // In every order of the signals: if and only if all reads are of times up to
  // the entry's own and of entries before its own, or the result is blind.
  lemma RightInEveryOrder(prog: Program, s: nat, asks: seq<Request>, g: Result, cells: Cells)
    requires Setting(prog, s, asks, g) && Markable(prog, cells)
    ensures (forall pre, post, samples :: Placed(|prog|, s, pre, post) && Real(prog, cells, samples)
              ==> RightIn(prog, samples, pre + [s] + post))
            <==> NoWait({}, asks) || Blind(prog, s, asks, g, cells)
  {
    if NoWait({}, asks) || Blind(prog, s, asks, g, cells) {
      forall pre, post, samples | Placed(|prog|, s, pre, post) && Real(prog, cells, samples)
        ensures RightIn(prog, samples, pre + [s] + post)
      {
        if NoWait({}, asks) {
          assert forall k :: 0 <= k < |asks| ==> Lag(SetOf(pre), asks[k]) <= Lag({}, asks[k]);
        }
        RightExactly(prog, s, asks, g, cells, pre, post);
      }
    } else {
      var post := Others(|prog|, s);
      forall t: nat
        ensures t in post <==> t < |prog| && t != s
      {
        OthersAre(|prog|, s, t);
      }
      var order := [] + [s] + post;
      forall k | 0 <= k < |order|
        ensures order[k] < |prog|
      {
        assert order[k] == if k == 0 then s else post[k - 1];
        assert k > 0 ==> order[k] in post;
      }
      forall t | 0 <= t < |prog|
        ensures t in order
      {
        assert t in [s] || t in post;
      }
      assert SetOf([]) == {};
      RightExactly(prog, s, asks, g, cells, [], post);
    }
  }
  // The values that can be read of a sample: the no-signal mark, and in a column
  // numbers and other text.
  ghost function InSample(prog: Program, columns: set<nat>): (cells: Cells)
    ensures Markable(prog, cells)
  {
    seq(|prog|, t requires 0 <= t < |prog| =>
      if t in columns then iset v: Value | v.Missing? || v.Number? || v.Text? else iset{Missing})
  }

  // A signal without a column is always right.
  lemma RightWithoutColumn(prog: Program, s: nat, asks: seq<Request>, g: Result, columns: set<nat>,
                           samples: seq<Sample>, pre: seq<nat>, post: seq<nat>)
    requires Setting(prog, s, asks, g) && Placed(|prog|, s, pre, post) && s !in columns
    requires Real(prog, InSample(prog, columns), samples)
    ensures RightIn(prog, samples, pre + [s] + post)
  {
    var cells := InSample(prog, columns);
    forall base, i: nat | Real(prog, cells, base)
      ensures BlindAt(prog, s, asks, g, cells, base, i)
    {
      assert cells[s] == iset{Missing};
    }
    BlindIsRight(prog, s, asks, g, cells, samples, pre, post);
  }
}
