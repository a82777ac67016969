// The program that evaluates delayed signals: clocks and signals are objects
// whose lists of entries grow with every sample, and a counter per signal says
// how many entries at the end of its list are still delayed.
module SignalEngine {
  import opened Signals

  datatype Cell = Val(value: Value) | Waiting

  datatype Origin = Unset | At(time: real)

  datatype Row = Row(t: real, value: Value)

  // Python's bisect_left and bisect_right on a sorted list.
  function BisectLeft(times: seq<real>, x: real): (r: nat)
    ensures r <= |times|
  {
    if times == [] || times[0] >= x then 0 else 1 + BisectLeft(times[1..], x)
  }

  function BisectRight(times: seq<real>, x: real): (r: nat)
    ensures r <= |times|
  {
    if times == [] || times[0] > x then 0 else 1 + BisectRight(times[1..], x)
  }

  // The first place whose time is not before x.
  lemma {:induction false} BisectLeftIs(times: seq<real>, x: real)
    ensures var r := BisectLeft(times, x);
            (forall k :: 0 <= k < r ==> times[k] < x) && (r < |times| ==> times[r] >= x)
  {
    if times != [] && times[0] < x {
      BisectLeftIs(times[1..], x);
      assert forall k :: 1 <= k < |times| ==> times[k] == times[1..][k - 1];
    }
  }

  predicate Increasing(times: seq<real>) {
    forall i, j :: 0 <= i < j < |times| ==> times[i] < times[j]
  }

  lemma {:induction false} BisectFinds(times: seq<real>, i: nat)
    requires Increasing(times) && i < |times|
    ensures BisectRight(times, times[i]) == i + 1
  {
    if i == 0 {
      if |times| > 1 {
        assert times[1..][0] == times[1] > times[0];
      }
    } else {
      BisectFinds(times[1..], i - 1);
    }
  }

  // The last `window` entries; Python deletes nothing for a window of 0.
  function Trim<T>(entries: seq<T>, window: nat): seq<T> {
    if 0 < window < |entries| then entries[|entries| - window..] else entries
  }

  lemma TrimKeepsLast<T>(entries: seq<T>, window: nat)
    ensures |Trim(entries, window)| == if window == 0 || window > |entries| then |entries| else window
    ensures Trim(entries, window) == entries[|entries| - |Trim(entries, window)|..]
  {
  }

  function Cells(column: seq<Value>, n: nat): seq<Cell> {
    seq(n, i => if 0 <= i < |column| then Val(column[i]) else Waiting)
  }

  // No computed entry follows a delayed one.
  predicate Settled(cells: seq<Cell>) {
    forall j, k :: 0 <= j < k < |cells| && cells[k].Val? ==> cells[j].Val?
  }

  class Clock {
    var times: seq<real>
    var since: seq<real>
    var last: seq<real>
    var center: int
    var window: nat

    // The three columns belong to these times and the window holds them all.
    ghost predicate Shows(ts: seq<real>)
      reads this
    {
      && times == ts
      && |since| == |last| == |ts| <= window
      && (forall i :: 0 <= i < |ts| ==> Number(since[i]) == TickValue(ts, SinceStart, i))
      && (forall i :: 0 <= i < |ts| ==> Number(last[i]) == TickValue(ts, SinceLast, i))
    }

    constructor ()
      ensures times == [] && since == [] && last == [] && center == 0 && window == 1
    {
      times, since, last, center, window := [], [], [], 0, 1;
    }

    method Push(origin: Origin, time: real)
      modifies this
      ensures window == |old(times)| + 1 - BisectLeft(old(times) + [time], 0.5)
      ensures times == Trim(old(times) + [time], window)
      ensures since == Trim(old(since) + [if origin.At? then time - origin.time else 0.0], window)
      ensures last == Trim(old(last) + [if old(times) != [] then time - old(times[|times| - 1]) else 0.0], window)
      ensures center == old(center)
    {
      var t := if origin.At? then time - origin.time else 0.0;
      var dt := if |times| > 0 then time - times[|times| - 1] else 0.0;
      times := times + [time];
      window := |times| - BisectLeft(times, 0.5);
      times := Trim(times, window);
      since := Trim(since + [t], window);
      last := Trim(last + [dt], window);
    }

    // With times of at least 0.5 the window keeps everything.
    method Append(origin: Origin, time: real)
      requires Shows(times) && time >= 0.5 && (times != [] ==> times[0] >= 0.5)
      requires times != [] ==> origin == At(times[0])
      requires times == [] && origin.At? ==> origin.time == time
      modifies this
      ensures Shows(old(times) + [time])
    {
      Push(origin, time);
    }

    method FindExprCenter(time: real)
      modifies `center
      ensures center == |times| - BisectRight(times, time)
    {
      center := |times| - BisectRight(times, time);
    }

    method RequireMinWindow(size: nat)
      modifies `window
      ensures window == if old(window) < size then size else old(window)
    {
      if window < size {
        window := size;
      }
    }

    function Column(tick: Tick): seq<real>
      reads this
    {
      match tick
      case Now => times
      case SinceStart => since
      case SinceLast => last
    }

    // The entry of a time column at an offset from the entry being evaluated.
    method Get(tick: Tick, offset: int) returns (a: Answer)
      modifies `window
      ensures window >= old(window)
      ensures var column := Column(tick);
              var k := |column| - 1 - center + offset;
              a == if column == [] then Got([Missing])
                   else if k < 0 then TooOld
                   else if k < |column| then Got([Number(column[k])]) else NotYet
    {
      var column := Column(tick);
      var k := |column| - 1 - center + offset;
      if |column| == 0 {
        a := Got([Missing]);
      } else if k < 0 {
        RequireMinWindow(|column| - k);
        a := TooOld;
      } else if k >= |column| {
        a := NotYet;
      } else {
        a := Got([Number(column[k])]);
      }
    }
  }

  class Signal {
    const clock: Clock
    var cells: seq<Cell>
    var exprCenter: int

    constructor (clock: Clock)
      ensures this.clock == clock && cells == [] && exprCenter == -1
    {
      this.clock, cells, exprCenter := clock, [], -1;
    }

    method PushDelayed()
      modifies this
      ensures cells == Trim(old(cells) + [Waiting], clock.window) && exprCenter == old(exprCenter) + 1
    {
      cells := Trim(cells + [Waiting], clock.window);
      exprCenter := exprCenter + 1;
    }

    // Where an offset from the entry being evaluated is in the list.
    method NormalizeIndex(offset: int) returns (a: Answer, k: int)
      modifies clock`window
      ensures clock.window >= old(clock.window)
      ensures k == |cells| - 1 - clock.center + offset
      ensures a == if k < 0 then TooOld
                   else if k < |cells| && cells[k].Val? then Got([cells[k].value]) else NotYet
    {
      k := |cells| - 1 - clock.center + offset;
      if k < 0 {
        clock.RequireMinWindow(|cells| - k);
        a := TooOld;
      } else if k >= |cells| {
        a := NotYet;
      } else if cells[k].Waiting? {
        a := NotYet;
      } else {
        a := Got([cells[k].value]);
      }
    }

    method GetItem(offset: int) returns (a: Answer)
      modifies clock`window
      ensures clock.window >= old(clock.window)
      ensures var k := |cells| - 1 - clock.center + offset;
              a == if cells == [] then Got([Missing])
                   else if k < 0 then TooOld
                   else if k < |cells| && cells[k].Val? then Got([cells[k].value]) else NotYet
    {
      if |cells| > 0 {
        var k;
        a, k := NormalizeIndex(offset);
      } else {
        a := Got([Missing]);
      }
    }

    // All the entries between two offsets; none of them is delayed.
    method GetSlice(from: int, to: int) returns (a: Answer)
      requires Settled(cells)
      modifies clock`window
      ensures clock.window >= old(clock.window)
      ensures var j, k := |cells| - 1 - clock.center + from, |cells| - 1 - clock.center + to;
              if cells == [] then a == Got([])
              else if j < 0 then a == TooOld
              else if j >= |cells| || cells[j].Waiting? then a == NotYet
              else if k < 0 then a == TooOld
              else if k >= |cells| || cells[k].Waiting? then a == NotYet
              else a.Got? && |a.values| == (if j <= k then k + 1 - j else 0)
                   && forall i :: 0 <= i < |a.values| ==> cells[j + i] == Val(a.values[i])
    {
      if |cells| == 0 {
        return Got([]);
      }
      var j, k;
      a, j := NormalizeIndex(from);
      if a.Got? {
        a, k := NormalizeIndex(to);
        if a.Got? {
          var slice := if j <= k then cells[j..k + 1] else [];
          assert forall i :: 0 <= i < |slice| ==> slice[i] == cells[j + i] && slice[i].Val?;
          a := Got(seq(|slice|, i requires 0 <= i < |slice| => slice[i].value));
        }
      }
    }
  }

  // What is plotted for entry i of the plot signal.
  function PlotEntry(shown: real -> bool, relative: bool, samples: seq<Sample>, i: nat, v: Value): seq<Row>
    requires i < |samples|
  {
    var t := samples[i].time - (if relative then samples[0].time else 0.0);
    if shown(t) then [Row(t, v)] else []
  }

  // The rows plotted for the computed entries of the plot signal.
  function Rows(shown: real -> bool, relative: bool, samples: seq<Sample>, column: seq<Value>): seq<Row>
    requires |column| <= |samples|
  {
    if column == [] then []
    else
      var i := |column| - 1;
      Rows(shown, relative, samples, column[..i]) + PlotEntry(shown, relative, samples, i, column[i])
  }

  // These are, in order, the computed entries whose shown time is to be plotted.
  ghost predicate Picks(at: seq<nat>, shown: real -> bool, relative: bool, samples: seq<Sample>, column: seq<Value>)
    requires |column| <= |samples|
  {
    && (forall k :: 0 <= k < |at| ==> at[k] < |column|)
    && (forall j, k :: 0 <= j < k < |at| ==> at[j] < at[k])
    && (forall i :: 0 <= i < |column| ==>
          (i in at <==> shown(samples[i].time - (if relative then samples[0].time else 0.0))))
  }

  // The rows show one each the times and values of these entries.
  predicate ShowsEntries(rows: seq<Row>, at: seq<nat>, relative: bool, samples: seq<Sample>, column: seq<Value>)
    requires |column| <= |samples|
  {
    && |rows| == |at|
    && forall k :: 0 <= k < |at| ==>
         && at[k] < |column|
         && rows[k].value == column[at[k]]
         && rows[k].t == samples[at[k]].time - (if relative then samples[0].time else 0.0)
  }

  ghost predicate Plotted(rows: seq<Row>, shown: real -> bool, relative: bool, samples: seq<Sample>, column: seq<Value>) {
    && |column| <= |samples|
    && exists at :: Picks(at, shown, relative, samples, column) && ShowsEntries(rows, at, relative, samples, column)
  }

  lemma NotPicked(at: seq<nat>, shown: real -> bool, relative: bool, samples: seq<Sample>, column: seq<Value>, v: Value)
    requires |column| < |samples| && Picks(at, shown, relative, samples, column)
    requires !shown(samples[|column|].time - (if relative then samples[0].time else 0.0))
    ensures Picks(at, shown, relative, samples, column + [v])
  {
    assert forall k :: 0 <= k < |at| ==> at[k] != |column|;
  }

  lemma Picked(at: seq<nat>, shown: real -> bool, relative: bool, samples: seq<Sample>, column: seq<Value>, v: Value)
    requires |column| < |samples| && Picks(at, shown, relative, samples, column)
    requires shown(samples[|column|].time - (if relative then samples[0].time else 0.0))
    ensures Picks(at + [|column|], shown, relative, samples, column + [v])
  {
    forall i | 0 <= i <= |column|
      ensures i in at + [|column|] <==> i in at || i == |column|
    {
    }
  }

  lemma ShowsMore(rows: seq<Row>, at: seq<nat>, relative: bool, samples: seq<Sample>, column: seq<Value>, v: Value)
    requires |column| < |samples| && ShowsEntries(rows, at, relative, samples, column)
    ensures ShowsEntries(rows, at, relative, samples, column + [v])
    ensures var row := Row(samples[|column|].time - (if relative then samples[0].time else 0.0), v);
            ShowsEntries(rows + [row], at + [|column|], relative, samples, column + [v])
  {
  }

  // The rows plotted are those of the entries to be plotted, in order.
  lemma {:induction false} RowsAre(shown: real -> bool, relative: bool, samples: seq<Sample>, column: seq<Value>)
      returns (at: seq<nat>)
    requires |column| <= |samples|
    ensures Picks(at, shown, relative, samples, column)
    ensures ShowsEntries(Rows(shown, relative, samples, column), at, relative, samples, column)
  {
    if column == [] {
      at := [];
    } else {
      var i := |column| - 1;
      var before, v := column[..i], column[i];
      at := RowsAre(shown, relative, samples, before);
      assert before + [v] == column;
      ShowsMore(Rows(shown, relative, samples, before), at, relative, samples, before, v);
      if shown(samples[i].time - (if relative then samples[0].time else 0.0)) {
        Picked(at, shown, relative, samples, before, v);
        at := at + [i];
      } else {
        NotPicked(at, shown, relative, samples, before, v);
      }
    }
  }

  lemma RowsArePlotted(shown: real -> bool, relative: bool, samples: seq<Sample>, column: seq<Value>)
    requires |column| <= |samples|
    ensures Plotted(Rows(shown, relative, samples, column), shown, relative, samples, column)
  {
    var at := RowsAre(shown, relative, samples, column);
  }

  // A signal on each of these clocks, without entries.
  method MakeSignals(main: Clock, any: Clock, onTimeAny: seq<bool>) returns (all: seq<Signal>)
    ensures |all| == |onTimeAny|
    ensures forall k :: 0 <= k < |all| ==>
              && fresh(all[k]) && all[k].cells == [] && all[k].exprCenter == -1
              && all[k].clock == if onTimeAny[k] then any else main
    ensures forall k, l :: 0 <= k < l < |all| ==> all[k] != all[l]
  {
    all := [];
    for j := 0 to |onTimeAny|
      invariant |all| == j
      invariant forall k :: 0 <= k < j ==>
                  && fresh(all[k]) && all[k].cells == [] && all[k].exprCenter == -1
                  && all[k].clock == if onTimeAny[k] then any else main
      invariant forall k, l :: 0 <= k < l < j ==> all[k] != all[l]
    {
      var s := new Signal(if onTimeAny[j] then any else main);
      all := all + [s];
    }
  }

  class SignalProcessor {
    const prog: Program
    const order: seq<nat>
    const plot: nat
    const relative: bool
    const shown: real -> bool
    const clock: Clock
    const timeAny: Clock
    const signals: seq<Signal>
    var origin: Origin
    var plotted: seq<Row>
    ghost var samples: seq<Sample>
    ghost var table: Table

    // The signal holds this column followed by delayed entries, and counts them.
    ghost predicate GoodSignal(s: Signal, column: seq<Value>, n: nat)
      reads s
    {
      && (s.clock == clock || s.clock == timeAny)
      && |column| <= n
      && s.cells == Cells(column, n)
      && s.exprCenter == n - 1 - |column|
    }

    // The parts of the state that never change.
    ghost predicate Shape() {
      && WellFormed(prog) && ListsAll(order, |prog|)
      && |signals| == |prog| && plot < |prog|
      && clock != timeAny
      && forall i, j :: 0 <= i < j < |signals| ==> signals[i] != signals[j]
    }

    ghost predicate GoodSamples()
      reads `origin, `samples
    {
      && Fits(prog, samples)
      && Increasing(Times(samples))
      && (forall k :: 0 <= k < |samples| ==> samples[k].time >= 0.5)
      && origin == (if samples == [] then Unset else At(samples[0].time))
    }

    ghost predicate Valid()
      reads `origin, `samples, `table, clock, timeAny, signals
    {
      && Shape() && GoodSamples()
      && clock.Shows(Times(samples)) && timeAny.Shows(Times(samples))
      && |table| == |prog|
      && forall s :: 0 <= s < |signals| ==> GoodSignal(signals[s], table[s], |samples|)
    }

    // All samples so far have been evaluated and the catch-up has not begun.
    ghost predicate Streaming()
      reads this, clock, timeAny, signals
    {
      && Valid()
      && table == Stream(prog, samples, order)
      && plotted == Rows(shown, relative, samples, table[plot])
    }

    constructor (prog: Program, order: seq<nat>, plot: nat, relative: bool, shown: real -> bool, onTimeAny: seq<bool>)
      requires WellFormed(prog) && ListsAll(order, |prog|) && plot < |prog| == |onTimeAny|
      ensures this.prog == prog && this.order == order && this.plot == plot
      ensures this.relative == relative && this.shown == shown
      ensures Streaming() && samples == []
      ensures fresh(clock) && fresh(timeAny) && forall s :: 0 <= s < |signals| ==> fresh(signals[s])
    {
      this.prog, this.order, this.plot, this.relative, this.shown := prog, order, plot, relative, shown;
      var main := new Clock();
      var any := new Clock();
      var all := MakeSignals(main, any, onTimeAny);
      clock, timeAny, signals := main, any, all;
      origin, plotted, samples := Unset, [], [];
      table := seq(|prog|, i => []);
    }

    // One request of a formula, while entry i is evaluated.
    method Read(s: nat, r: Request, ghost i: nat) returns (a: Answer)
      requires Valid() && s < |prog| && InRange(r, |prog|) && !r.Return?
      requires i < |samples| && clock.center == timeAny.center == |samples| - 1 - i
      modifies clock`window, timeAny`window
      ensures Valid()
      ensures a == Lookup(table, Times(samples), i, r)
    {
      match r {
        case Get(t, offset) =>
          a := signals[t].GetItem(offset);
        case Slice(t, from, to) =>
          a := ReadSlice(t, from, to, i);
        case Clocked(tick, offset) =>
          a := signals[s].clock.Get(tick, offset);
      }
    }

    method ReadSlice(t: nat, from: int, to: int, ghost i: nat) returns (a: Answer)
      requires Valid() && t < |prog|
      requires i < |samples| && clock.center == timeAny.center == |samples| - 1 - i
      modifies clock`window, timeAny`window
      ensures Valid()
      ensures a == Lookup(table, Times(samples), i, Slice(t, from, to))
    {
      a := signals[t].GetSlice(from, to);
      SliceRead(signals[t].cells, table[t], |samples|, i, from, to, a);
    }

    // Runs the formula of signal s for entry i: the request loop.
    method Eval(s: nat, raw: Value, ghost i: nat) returns (o: Outcome)
      requires Valid() && s < |prog|
      requires i < |samples| && clock.center == timeAny.center == |samples| - 1 - i
      modifies clock`window, timeAny`window
      ensures Valid()
      ensures o == Evaluate(prog[s], raw, table, Times(samples), i, [])
    {
      var f := prog[s];
      var answers: seq<seq<Value>> := [];
      var r := Ask(f, raw, answers);
      while !r.Return?
        invariant Valid() && r == Ask(f, raw, answers)
        invariant Evaluate(f, raw, table, Times(samples), i, answers) == Evaluate(f, raw, table, Times(samples), i, [])
        decreases f.limit - |answers|
      {
        var a := Read(s, r, i);
        if a.TooOld? {
          return Done(Missing);
        } else if a.NotYet? {
          return Delayed;
        }
        answers := answers + [a.values];
        r := Ask(f, raw, answers);
      }
      o := Done(r.value);
    }

    // Centers both clocks on the oldest delayed entry of signal s.
    method SetCenters(s: nat) returns (time: real)
      requires Valid() && s < |prog| && signals[s].exprCenter >= 0
      modifies clock`center, timeAny`center, clock`window, timeAny`window
      ensures Valid()
      ensures |table[s]| < |samples| && time == samples[|table[s]|].time
      ensures clock.center == timeAny.center == |samples| - 1 - |table[s]|
    {
      ghost var i := |table[s]|;
      var mine := signals[s].clock;
      mine.center := signals[s].exprCenter;
      var here := mine.Get(Now, 0);
      time := here.values[0].x;
      BisectFinds(Times(samples), i);
      clock.FindExprCenter(time);
      timeAny.FindExprCenter(time);
    }

    // Stores the oldest delayed entry of signal s.
    method Store(s: nat, v: Value)
      requires Valid() && s < |prog| && signals[s].exprCenter >= 0
      modifies signals[s], `table
      ensures Valid()
      ensures table == old(table)[s := old(table)[s] + [v]]
    {
      var me := signals[s];
      CellsSet(table[s], |samples|, v);
      me.cells := me.cells[|me.cells| - me.exprCenter - 1 := Val(v)];
      me.exprCenter := me.exprCenter - 1;
      table := table[s := table[s] + [v]];
    }

    // Computes the oldest delayed entry of signal s and returns what is plotted
    // for it.
    method Calc(s: nat, raw: Value, delayFuture: bool) returns (success: bool, row: seq<Row>)
      requires Valid() && s < |prog| && signals[s].exprCenter >= 0
      modifies clock`center, timeAny`center, clock`window, timeAny`window
      modifies signals[s], `table
      ensures Valid()
      ensures |old(table)[s]| < |samples|
      ensures var i := |old(table)[s]|;
              var o := Evaluate(prog[s], raw, old(table), Times(samples), i, []);
              var v := if o.Done? then o.value else Missing;
              && success == (o.Done? || !delayFuture)
              && table == (if success then old(table)[s := old(table)[s] + [v]] else old(table))
              && row == (if success && s == plot then PlotEntry(shown, relative, samples, i, v) else [])
    {
      var time := SetCenters(s);
      var o := Eval(s, raw, |table[s]|);
      success, row := o.Done? || !delayFuture, [];
      if success {
        var v := if o.Done? then o.value else Missing;
        Store(s, v);
        var t := time - (if relative && origin.At? then origin.time else 0.0);
        if s == plot && shown(t) {
          row := [Row(t, v)];
        }
      }
    }

    // Computes entries of signal s until one is delayed, and adds to the rows
    // plotted so far.
    method DrainSignal(s: nat, raw: Value, plotted: seq<Row>) returns (rows: seq<Row>)
      requires Valid() && s < |prog|
      requires |table[plot]| <= |samples| && plotted == Rows(shown, relative, samples, table[plot])
      modifies clock`center, timeAny`center, clock`window, timeAny`window
      modifies signals[s], `table
      ensures Valid()
      ensures table == Drain(prog, raw, Times(samples), old(table), s)
      ensures |table[plot]| <= |samples| && rows == Rows(shown, relative, samples, table[plot])
    {
      var success := true;
      rows := plotted;
      while success && signals[s].exprCenter >= 0
        invariant Valid()
        invariant Drain(prog, raw, Times(samples), table, s) == Drain(prog, raw, Times(samples), old(table), s)
        invariant !success ==> Drain(prog, raw, Times(samples), table, s) == table
        invariant |table[plot]| <= |samples| && rows == Rows(shown, relative, samples, table[plot])
        decreases |samples| - |table[s]|, success
      {
        ghost var tab := table;
        var row;
        success, row := Calc(s, raw, true);
        if success && s == plot {
          RowsPush(shown, relative, samples, tab[plot], table[plot][|tab[plot]|]);
        }
        rows := rows + row;
      }
    }

    method PushClocks(sample: Sample)
      requires Shape() && GoodSamples()
      requires clock.Shows(Times(samples)) && timeAny.Shows(Times(samples))
      requires |sample.raws| == |prog| && sample.time >= 0.5
      requires samples == [] || sample.time > samples[|samples| - 1].time
      modifies clock, timeAny, `origin, `samples
      ensures GoodSamples() && samples == old(samples) + [sample]
      ensures clock.Shows(Times(samples)) && timeAny.Shows(Times(samples))
    {
      clock.Append(origin, sample.time);
      if origin.Unset? {
        origin := At(sample.time);
      }
      timeAny.Append(origin, sample.time);
      GoodTimes(samples, sample);
      samples := samples + [sample];
    }

    method PushSignals(ghost n: nat)
      requires Shape() && |table| == |prog|
      requires forall s :: 0 <= s < |signals| ==> GoodSignal(signals[s], table[s], n) && n < signals[s].clock.window
      modifies signals
      ensures forall s :: 0 <= s < |signals| ==> GoodSignal(signals[s], table[s], n + 1)
    {
      for j := 0 to |signals|
        invariant forall s :: 0 <= s < j ==> GoodSignal(signals[s], table[s], n + 1)
        invariant forall s :: j <= s < |signals| ==> GoodSignal(signals[s], table[s], n)
      {
        CellsPush(table[j], n);
        signals[j].PushDelayed();
      }
    }

    // Takes the time of a sample and gives every signal a delayed entry.
    method Push(sample: Sample)
      requires Valid()
      requires |sample.raws| == |prog| && sample.time >= 0.5
      requires samples == [] || sample.time > samples[|samples| - 1].time
      modifies clock, timeAny, signals, `origin, `samples
      ensures Valid() && samples == old(samples) + [sample]
    {
      PushClocks(sample);
      PushSignals(|samples| - 1);
    }

    // Evaluates what can be evaluated with the newest sample.
    method PassAll(raws: seq<Value>, plotted: seq<Row>) returns (rows: seq<Row>)
      requires Valid() && |raws| == |prog|
      requires |table[plot]| <= |samples| && plotted == Rows(shown, relative, samples, table[plot])
      modifies clock, timeAny, signals, `table
      ensures Valid()
      ensures table == Pass(prog, raws, Times(samples), old(table), order)
      ensures |table[plot]| <= |samples| && rows == Rows(shown, relative, samples, table[plot])
    {
      rows := plotted;
      for k := 0 to |order|
        invariant Valid()
        invariant |table[plot]| <= |samples| && rows == Rows(shown, relative, samples, table[plot])
        invariant Pass(prog, raws, Times(samples), table, order[k..])
               == Pass(prog, raws, Times(samples), old(table), order)
      {
        rows := DrainSignal(order[k], raws[order[k]], rows);
        assert order[k..][1..] == order[k + 1..];
      }
    }

    method PlotPass(raws: seq<Value>)
      requires Valid() && |raws| == |prog|
      requires |table[plot]| <= |samples| && plotted == Rows(shown, relative, samples, table[plot])
      requires Stream(prog, samples, order) == Pass(prog, raws, Times(samples), table, order)
      modifies clock, timeAny, signals, `table, `plotted
      ensures Streaming()
    {
      plotted := PassAll(raws, plotted);
    }

    lemma StreamingIsPlotted()
      requires Streaming()
      ensures |table| == |prog| && plot < |prog| && Plotted(plotted, shown, relative, samples, table[plot])
    {
      assert GoodSignal(signals[plot], table[plot], |samples|);
      RowsArePlotted(shown, relative, samples, table[plot]);
    }

    // One sample.
    method Feed(sample: Sample)
      requires Streaming()
      requires |sample.raws| == |prog| && sample.time >= 0.5
      requires samples == [] || sample.time > samples[|samples| - 1].time
      modifies clock, timeAny, signals, `origin, `samples, `table, `plotted
      ensures Streaming() && samples == old(samples) + [sample]
      ensures Plotted(plotted, shown, relative, samples, table[plot])
    {
      NextStream(prog, order, plot, shown, relative, samples, sample);
      Push(sample);
      PlotPass(sample.raws);
      StreamingIsPlotted();
    }

    // One entry of signal s at the end of the stream, if one is delayed.
    method ForceSignal(s: nat) returns (calculated: nat)
      requires Valid() && s < |prog|
      modifies clock, timeAny, signals, `table
      ensures Valid() && table == Force(prog, Times(samples), old(table), s)
      ensures calculated == 0 <==> |old(table)[s]| == |samples|
      ensures calculated == 0 ==> table == old(table)
    {
      calculated := 0;
      if signals[s].exprCenter >= 0 {
        var _, _ := Calc(s, Missing, false);
        calculated := 1;
      }
    }

    // The first k signals have been forced since the table was `start`.
    ghost predicate Forced(start: Table, k: nat, calculated: nat)
      requires k <= |order|
      reads this, clock, timeAny, signals
    {
      && Valid() && |start| == |prog|
      && ForceAll(prog, Times(samples), table, order[k..]) == ForceAll(prog, Times(samples), start, order)
      && (calculated == 0 ==> table == start)
      && (calculated == 0 <==> Finished(order, k, start, |samples|))
    }

    lemma ForceStarts()
      requires Valid()
      ensures Forced(table, 0, 0)
    {
      assert order[0..] == order;
    }

    lemma ForceEnds(start: Table, calculated: nat)
      requires Forced(start, |order|, calculated)
      ensures table == ForceAll(prog, Times(samples), start, order)
      ensures calculated == 0 <==> Complete(start, |samples|)
    {
      assert order[|order|..] == [];
      AllListed(order, start, |samples|);
    }

    method ForceNext(k: nat, before: nat, ghost start: Table) returns (calculated: nat)
      requires k < |order| && Forced(start, k, before)
      modifies clock, timeAny, signals, `table
      ensures Forced(start, k + 1, calculated)
    {
      ForceAllNext(prog, Times(samples), table, order, k);
      var n := ForceSignal(order[k]);
      calculated := before + n;
    }

    // One pass over the signals at the end of the stream.
    method ForcePass() returns (calculated: nat)
      requires Valid()
      modifies clock, timeAny, signals, `table
      ensures Valid()
      ensures table == ForceAll(prog, Times(samples), old(table), order)
      ensures calculated == 0 ==> table == old(table)
      ensures calculated == 0 <==> Complete(old(table), |samples|)
    {
      ghost var start := table;
      calculated := 0;
      ForceStarts();
      for k := 0 to |order|
        invariant Forced(start, k, calculated)
      {
        calculated := ForceNext(k, calculated, start);
      }
      ForceEnds(start, calculated);
    }

    // At the end of the stream: passes until nothing is delayed.
    method CatchUpAll()
      requires Valid()
      modifies clock, timeAny, signals, `table
      ensures Valid() && Bounded(old(table), |samples|)
      ensures table == CatchUp(prog, Times(samples), old(table), order)
    {
      var calculated := 1;
      while calculated > 0
        invariant Valid() && Bounded(table, |samples|) && Bounded(old(table), |samples|)
        invariant CatchUp(prog, Times(samples), table, order) == CatchUp(prog, Times(samples), old(table), order)
        invariant calculated == 0 ==> Complete(table, |samples|)
        decreases Backlog(table, |samples|), calculated
      {
        ghost var tab := table;
        calculated := ForcePass();
        CatchUpPass(prog, Times(samples), tab, order);
      }
    }

    method FeedAll(input: seq<Sample>)
      requires Streaming() && samples == []
      requires Fits(prog, input) && Increasing(Times(input))
      requires forall k :: 0 <= k < |input| ==> input[k].time >= 0.5
      modifies clock, timeAny, signals, `origin, `samples, `table, `plotted
      ensures Streaming() && samples == input
    {
      for k := 0 to |input|
        invariant Streaming() && samples == input[..k]
      {
        NextInput(prog, input, k);
        Feed(input[k]);
      }
      assert input[..|input|] == input;
    }

    // A whole stream: the rows are those of the entries computed before the
    // catch-up; after it nothing is delayed.
    method Run(input: seq<Sample>)
      requires Streaming() && samples == []
      requires Fits(prog, input) && Increasing(Times(input))
      requires forall k :: 0 <= k < |input| ==> input[k].time >= 0.5
      modifies clock, timeAny, signals, `origin, `samples, `table, `plotted
      ensures Valid() && samples == input
      ensures Bounded(Stream(prog, input, order), |input|)
      ensures table == CatchUp(prog, Times(input), Stream(prog, input, order), order)
      ensures plotted == Rows(shown, relative, input, Stream(prog, input, order)[plot])
      ensures Plotted(plotted, shown, relative, input, Stream(prog, input, order)[plot])
      ensures forall s :: 0 <= s < |signals| ==> signals[s].exprCenter == -1 && signals[s].cells == Cells(table[s], |table[s]|)
    {
      FeedAll(input);
      StreamingIsPlotted();
      CatchUpAll();
    }
  }

  lemma NextInput(prog: Program, input: seq<Sample>, k: nat)
    requires Fits(prog, input) && Increasing(Times(input)) && k < |input|
    ensures |input[k].raws| == |prog| && input[..k + 1] == input[..k] + [input[k]]
    ensures input[..k] == [] || input[k].time > input[..k][|input[..k]| - 1].time
  {
    assert k > 0 ==> Times(input)[k - 1] < Times(input)[k];
  }

  // The first k signals listed have all their entries.
  predicate Finished(order: seq<nat>, k: nat, tab: Table, n: nat)
    requires Lists(order, |tab|) && k <= |order|
  {
    forall j :: 0 <= j < k ==> |tab[order[j]]| == n
  }

  lemma ForceAllNext(prog: Program, times: seq<real>, tab: Table, order: seq<nat>, k: nat)
    requires WellFormed(prog) && |tab| == |prog| && Lists(order, |prog|) && k < |order|
    ensures ForceAll(prog, times, tab, order[k..]) == ForceAll(prog, times, Force(prog, times, tab, order[k]), order[k + 1..])
  {
    assert order[k..][1..] == order[k + 1..];
  }

  lemma AllListed(order: seq<nat>, tab: Table, n: nat)
    requires ListsAll(order, |tab|)
    ensures Finished(order, |order|, tab, n) <==> Complete(tab, n)
  {
    if Finished(order, |order|, tab, n) {
      forall s | 0 <= s < |tab|
        ensures |tab[s]| == n
      {
        assert s in order;
      }
    }
  }

  // A pass does not change where the catch-up ends.
  lemma CatchUpPass(prog: Program, times: seq<real>, tab: Table, order: seq<nat>)
    requires WellFormed(prog) && |tab| == |prog| && ListsAll(order, |prog|) && Bounded(tab, |times|)
    ensures var r := ForceAll(prog, times, tab, order);
            && Bounded(r, |times|)
            && CatchUp(prog, times, r, order) == CatchUp(prog, times, tab, order)
            && (Complete(tab, |times|) || Backlog(r, |times|) < Backlog(tab, |times|))
  {
    ForceAllShortens(prog, times, tab, order);
    if Complete(tab, |times|) {
      ForceAllComplete(prog, times, tab, order);
    } else {
      var s :| 0 <= s < |tab| && |tab[s]| != |times|;
      assert s in order && |tab[s]| < |times|;
    }
  }

  lemma {:induction false} ForceAllComplete(prog: Program, times: seq<real>, tab: Table, order: seq<nat>)
    requires WellFormed(prog) && |tab| == |prog| && Lists(order, |prog|) && Complete(tab, |times|)
    ensures ForceAll(prog, times, tab, order) == tab
    decreases order
  {
    if order != [] {
      ForceAllComplete(prog, times, tab, order[1..]);
    }
  }

  lemma RowsPush(shown: real -> bool, relative: bool, samples: seq<Sample>, column: seq<Value>, v: Value)
    requires |column| < |samples|
    ensures Rows(shown, relative, samples, column + [v])
         == Rows(shown, relative, samples, column) + PlotEntry(shown, relative, samples, |column|, v)
  {
  }

  lemma StreamPush(prog: Program, samples: seq<Sample>, sample: Sample, order: seq<nat>)
    requires WellFormed(prog) && ListsAll(order, |prog|) && Fits(prog, samples) && |sample.raws| == |prog|
    ensures Fits(prog, samples + [sample])
    ensures Stream(prog, samples + [sample], order)
         == Pass(prog, sample.raws, Times(samples + [sample]), Stream(prog, samples, order), order)
  {
  }

  // A sample more, before anything is evaluated with it.
  lemma NextStream(prog: Program, order: seq<nat>, plot: nat, shown: real -> bool, relative: bool,
                   samples: seq<Sample>, sample: Sample)
    requires WellFormed(prog) && ListsAll(order, |prog|) && plot < |prog|
    requires Fits(prog, samples) && |sample.raws| == |prog|
    ensures var more, table := samples + [sample], Stream(prog, samples, order);
            && Fits(prog, more) && |table[plot]| <= |samples|
            && Stream(prog, more, order) == Pass(prog, sample.raws, Times(more), table, order)
            && Rows(shown, relative, more, table[plot]) == Rows(shown, relative, samples, table[plot])
  {
    StreamBounded(prog, samples, order);
    RowsExtend(shown, relative, samples, sample, Stream(prog, samples, order)[plot]);
    StreamPush(prog, samples, sample, order);
  }

  lemma CellsSet(column: seq<Value>, n: nat, v: Value)
    requires |column| < n
    ensures Cells(column, n)[|column| := Val(v)] == Cells(column + [v], n)
  {
  }

  lemma CellsPush(column: seq<Value>, n: nat)
    requires |column| <= n
    ensures Cells(column, n) + [Waiting] == Cells(column, n + 1)
  {
  }

  lemma GoodTimes(samples: seq<Sample>, sample: Sample)
    requires Increasing(Times(samples)) && (samples != [] ==> sample.time > samples[|samples| - 1].time)
    ensures Times(samples + [sample]) == Times(samples) + [sample.time]
    ensures Increasing(Times(samples + [sample]))
  {
    var times := Times(samples + [sample]);
    forall i, j | 0 <= i < j < |times|
      ensures times[i] < times[j]
    {
      assert Times(samples)[i] == times[i];
      if j < |samples| {
        assert Times(samples)[j] == times[j];
      } else if i < j - 1 {
        assert Times(samples)[i] < Times(samples)[j - 1];
      }
    }
  }

  lemma {:induction false} RowsExtend(shown: real -> bool, relative: bool, samples: seq<Sample>, sample: Sample,
                                      column: seq<Value>)
    requires |column| <= |samples|
    ensures Rows(shown, relative, samples + [sample], column) == Rows(shown, relative, samples, column)
  {
    if column != [] {
      RowsExtend(shown, relative, samples, sample, column[..|column| - 1]);
    }
  }

  // What a slice of a signal's list gives is a slice of its computed entries.
  lemma SliceRead(cells: seq<Cell>, column: seq<Value>, n: nat, i: nat, from: int, to: int, a: Answer)
    requires |column| <= n && i < n && cells == Cells(column, n)
    requires var j, k := i + from, i + to;
             if j < 0 then a == TooOld
             else if j >= |cells| || cells[j].Waiting? then a == NotYet
             else if k < 0 then a == TooOld
             else if k >= |cells| || cells[k].Waiting? then a == NotYet
             else a.Got? && |a.values| == (if j <= k then k + 1 - j else 0)
                  && forall l :: 0 <= l < |a.values| ==> cells[j + l] == Val(a.values[l])
    ensures a == Lookup([column], [], i, Slice(0, from, to))
  {
  }
}
