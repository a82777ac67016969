// Merging sampler outputs by time.  Every source maps its columns and converts
// its times; a merged row takes the row of each source that is due and fills
// the columns of the others with "NO_SIG".  A line is a sequence of cells.
module Merger {

  datatype Option<T> = None | Some(value: T)

  const NO_SIG := "NO_SIG"

  // ---------------------------------------------------------------- time conversion

  datatype TimeConverter = TimeConverter(a: real, b: real) {
    function Convert(t: real): real {
      a * t + b
    }
  }

  // The line through two points.
  function MakeConverter(x0: real, y0: real, x1: real, y1: real): TimeConverter
    requires x0 != x1
  {
    TimeConverter((y1 - y0) / (x1 - x0), y0 - x0 * (y1 - y0) / (x1 - x0))
  }

  lemma ConverterInterpolates(x0: real, y0: real, x1: real, y1: real)
    requires x0 != x1
    ensures MakeConverter(x0, y0, x1, y1).Convert(x0) == y0
    ensures MakeConverter(x0, y0, x1, y1).Convert(x1) == y1
  {
  }

  // Time order is kept exactly when the two points are ordered alike.
  lemma ConverterKeepsOrder(x0: real, y0: real, x1: real, y1: real)
    requires x0 < x1
    ensures y0 < y1 <==> forall s, t :: s < t ==>
              MakeConverter(x0, y0, x1, y1).Convert(s) < MakeConverter(x0, y0, x1, y1).Convert(t)
  {
    var c := MakeConverter(x0, y0, x1, y1);
    ConverterInterpolates(x0, y0, x1, y1);
    if y0 < y1 {
      Positive(y1 - y0, x1 - x0);
      forall s, t | s < t
        ensures c.Convert(s) < c.Convert(t)
      {
        Rises(c.a, c.b, s, t);
      }
    } else {
      assert c.Convert(x0) >= c.Convert(x1);
    }
  }

  lemma Positive(x: real, y: real)
    requires x > 0.0 && y > 0.0
    ensures x / y > 0.0
  {
  }

  lemma Rises(a: real, b: real, s: real, t: real)
    requires a > 0.0 && s < t
    ensures a * s + b < a * t + b
  {
    assert a * t - a * s == a * (t - s);
  }

  // ---------------------------------------------------------------- columns of a source

  datatype Column = Column(src: nat, name: string)

  datatype Config = Config(
    renames: map<string, string>, copies: seq<(string, string)>, deletes: seq<string>, deleteAll: bool,
    keeps: seq<string>, extraTimes: seq<string>, clockColumn: Option<string>)

  datatype Layout = Layout(columns: seq<Column>, srcCount: nat, clockSrc: nat, clockDst: nat)

  function Renamed(cfg: Config, header: seq<string>): seq<string> {
    seq(|header|, i requires 0 <= i < |header| => if header[i] in cfg.renames then cfg.renames[header[i]] else header[i])
  }

  // An empty name counts as none.
  predicate NamesClock(cfg: Config) {
    cfg.clockColumn.Some? && cfg.clockColumn.value != ""
  }

  // With delete_all the clock, the extra times and whatever is renamed or
  // copied are kept too.
  predicate Kept(cfg: Config, first: string, n: string) {
    if cfg.deleteAll then
      || n in cfg.keeps
      || n == (if NamesClock(cfg) then cfg.clockColumn.value else first)
      || n in cfg.extraTimes
      || n in cfg.renames.Values
      || (exists k :: 0 <= k < |cfg.copies| && (cfg.copies[k].0 == n || cfg.copies[k].1 == n))
    else n !in cfg.deletes
  }

  // Column i and its copies, as far as they are kept.
  function Copies(cfg: Config, first: string, i: nat, name: string, k: nat): seq<Column>
    requires k <= |cfg.copies|
  {
    if k == 0 then if Kept(cfg, first, name) then [Column(i, name)] else []
    else
      var (e1, e2) := cfg.copies[k - 1];
      Copies(cfg, first, i, name, k - 1) + if e1 == name && Kept(cfg, first, e2) then [Column(i, e2)] else []
  }

  function ColumnsUpTo(cfg: Config, names: seq<string>, i: nat): seq<Column>
    requires i <= |names|
  {
    if i == 0 then [] else ColumnsUpTo(cfg, names, i - 1) + Copies(cfg, names[0], i - 1, names[i - 1], |cfg.copies|)
  }

  // The place of the first column of this name, if there is one.
  function Find(columns: seq<Column>, name: string): (k: nat)
    ensures k <= |columns|
    ensures k < |columns| ==> columns[k].name == name
    ensures forall j :: 0 <= j < k ==> columns[j].name != name
  {
    if columns == [] || columns[0].name == name then 0 else 1 + Find(columns[1..], name)
  }

  predicate AllFound(columns: seq<Column>, names: seq<string>) {
    forall k :: 0 <= k < |names| ==> Find(columns, names[k]) < |columns|
  }

  // None where the program stops, with an index error if the clock column that
  // is named does not exist, else with a key error if an extra time does not.
  // A line has at least one cell.
  function MakeLayout(cfg: Config, header: seq<string>): Option<Layout> {
    var columns := ColumnsUpTo(cfg, Renamed(cfg, header), |header|);
    if header == [] || !AllFound(columns, cfg.extraTimes) then None
    else if !NamesClock(cfg) then Some(Layout(columns, |header|, 0, 0))
    else
      var k := Find(columns, cfg.clockColumn.value);
      if k == |columns| then None else Some(Layout(columns, |header|, columns[k].src, k))
  }

  predicate GoodLayout(l: Layout) {
    && (l.columns != [] ==> l.clockDst < |l.columns|) && l.clockSrc < l.srcCount
    && forall k :: 0 <= k < |l.columns| ==> l.columns[k].src < l.srcCount
  }

  predicate CopiedTo(cfg: Config, name: string, n: string, k: nat)
    requires k <= |cfg.copies|
  {
    exists j :: 0 <= j < k && cfg.copies[j] == (name, n)
  }

  lemma CopiedNext(cfg: Config, name: string, n: string, k: nat)
    requires 0 < k <= |cfg.copies|
    ensures CopiedTo(cfg, name, n, k) <==> CopiedTo(cfg, name, n, k - 1) || cfg.copies[k - 1] == (name, n)
  {
  }

  lemma {:induction false} CopiesAre(cfg: Config, first: string, i: nat, name: string, k: nat, c: Column)
    requires k <= |cfg.copies|
    ensures c in Copies(cfg, first, i, name, k)
       <==> c.src == i && Kept(cfg, first, c.name) && (c.name == name || CopiedTo(cfg, name, c.name, k))
  {
    if k > 0 {
      CopiesAre(cfg, first, i, name, k - 1, c);
      CopiedNext(cfg, name, c.name, k);
      assert cfg.copies[k - 1] == (cfg.copies[k - 1].0, cfg.copies[k - 1].1);
    }
  }

  // The columns are the renamed columns of the source and their copies that
  // are kept, and no others.
  lemma {:induction false} ColumnsAre(cfg: Config, names: seq<string>, i: nat, c: Column)
    requires i <= |names|
    ensures c in ColumnsUpTo(cfg, names, i)
       <==> && c.src < i && Kept(cfg, names[0], c.name)
            && (c.name == names[c.src] || CopiedTo(cfg, names[c.src], c.name, |cfg.copies|))
  {
    if i > 0 {
      ColumnsAre(cfg, names, i - 1, c);
      CopiesAre(cfg, names[0], i - 1, names[i - 1], |cfg.copies|, c);
    }
  }

  // Column i of the file goes under its new name, if it has one.
  predicate Named(cfg: Config, header: seq<string>, i: nat, name: string)
    requires i < |header|
  {
    name == if header[i] in cfg.renames then cfg.renames[header[i]] else header[i]
  }

  // Whether a column of this name is kept, `first` being that of the first one.
  predicate Stays(cfg: Config, first: string, n: string) {
    if !cfg.deleteAll then forall k :: 0 <= k < |cfg.deletes| ==> cfg.deletes[k] != n
    else
      || n in cfg.keeps + cfg.extraTimes
      || (exists from :: from in cfg.renames && cfg.renames[from] == n)
      || (exists pair :: pair in cfg.copies && n in [pair.0, pair.1])
      || (cfg.clockColumn == Some(n) && n != "") || ((cfg.clockColumn.None? || cfg.clockColumn.value == "") && n == first)
  }

  lemma KeptStays(cfg: Config, first: string, n: string)
    ensures Kept(cfg, first, n) <==> Stays(cfg, first, n)
  {
    if exists k :: 0 <= k < |cfg.copies| && (cfg.copies[k].0 == n || cfg.copies[k].1 == n) {
      var k :| 0 <= k < |cfg.copies| && (cfg.copies[k].0 == n || cfg.copies[k].1 == n);
      assert cfg.copies[k] in cfg.copies;
    }
  }

  // The columns of a source, by its header and options.
  lemma LayoutColumnsAre(cfg: Config, header: seq<string>, c: Column)
    requires MakeLayout(cfg, header).Some?
    ensures c in MakeLayout(cfg, header).value.columns
       <==> c.src < |header| && exists first, name :: Arises(cfg, header, c, first, name)
  {
    var names := Renamed(cfg, header);
    ColumnsAre(cfg, names, |header|, c);
    KeptStays(cfg, names[0], c.name);
    if c in MakeLayout(cfg, header).value.columns {
      assert Arises(cfg, header, c, names[0], names[c.src]);
    }
  }

  // Column c is the column of the file of this name, or a copy of it.
  predicate Arises(cfg: Config, header: seq<string>, c: Column, first: string, name: string)
    requires c.src < |header|
  {
    && Named(cfg, header, 0, first) && Named(cfg, header, c.src, name)
    && Stays(cfg, first, c.name) && (c.name == name || (name, c.name) in cfg.copies)
  }

  predicate Has(columns: seq<Column>, name: string) {
    exists k :: 0 <= k < |columns| && columns[k].name == name
  }

  predicate FirstNamed(columns: seq<Column>, name: string, k: nat) {
    k < |columns| && columns[k].name == name && forall j :: 0 <= j < k ==> columns[j].name != name
  }

  lemma FindsIfHas(columns: seq<Column>, name: string)
    ensures Find(columns, name) < |columns| <==> Has(columns, name)
    ensures Has(columns, name) ==> FirstNamed(columns, name, Find(columns, name))
  {
  }

  lemma FindsAll(columns: seq<Column>, names: seq<string>)
    ensures AllFound(columns, names) <==> forall k :: 0 <= k < |names| ==> Has(columns, names[k])
  {
    forall k | 0 <= k < |names|
      ensures Find(columns, names[k]) < |columns| <==> Has(columns, names[k])
    {
      FindsIfHas(columns, names[k]);
    }
  }

  // The program stops exactly if a column named as the clock or as a time is
  // missing.
  lemma LayoutStops(cfg: Config, header: seq<string>)
    requires header != []
    ensures var columns := ColumnsUpTo(cfg, Renamed(cfg, header), |header|);
            MakeLayout(cfg, header).Some?
            <==> && (cfg.clockColumn.Some? && cfg.clockColumn.value != "" ==> Has(columns, cfg.clockColumn.value))
                 && forall k :: 0 <= k < |cfg.extraTimes| ==> Has(columns, cfg.extraTimes[k])
  {
    var columns := ColumnsUpTo(cfg, Renamed(cfg, header), |header|);
    FindsAll(columns, cfg.extraTimes);
    if NamesClock(cfg) {
      FindsIfHas(columns, cfg.clockColumn.value);
    }
  }

  // The clock is the first column of its name, or else the first cell.
  lemma LayoutClock(cfg: Config, header: seq<string>)
    requires MakeLayout(cfg, header).Some?
    ensures var l := MakeLayout(cfg, header).value;
            && l.srcCount == |header|
            && if cfg.clockColumn.None? || cfg.clockColumn.value == "" then l.clockSrc == l.clockDst == 0
               else FirstNamed(l.columns, cfg.clockColumn.value, l.clockDst) && l.clockSrc == l.columns[l.clockDst].src
  {
    var columns := ColumnsUpTo(cfg, Renamed(cfg, header), |header|);
    if NamesClock(cfg) {
      var k := Find(columns, cfg.clockColumn.value);
      FindsIfHas(columns, cfg.clockColumn.value);
      assert k < |columns| && FirstNamed(columns, cfg.clockColumn.value, k);
      assert MakeLayout(cfg, header) == Some(Layout(columns, |header|, columns[k].src, k));
    }
  }

  predicate InOrder(columns: seq<Column>) {
    forall j, k :: 0 <= j < k < |columns| ==> columns[j].src <= columns[k].src
  }

  lemma OrderedWith(columns: seq<Column>, more: seq<Column>, i: nat)
    requires InOrder(columns) && (forall c :: c in columns ==> c.src <= i) && (forall c :: c in more ==> c.src == i)
    ensures InOrder(columns + more)
  {
    var all := columns + more;
    forall j, k | 0 <= j < k < |all|
      ensures all[j].src <= all[k].src
    {
      assert k < |columns| || all[k] in more;
      assert j >= |columns| || all[j] in columns;
    }
  }

  lemma ColumnsBelow(cfg: Config, names: seq<string>, i: nat)
    requires i <= |names|
    ensures forall c :: c in ColumnsUpTo(cfg, names, i) ==> c.src < i
  {
    forall c | c in ColumnsUpTo(cfg, names, i)
      ensures c.src < i
    {
      ColumnsAre(cfg, names, i, c);
    }
  }

  lemma CopiesFrom(cfg: Config, first: string, i: nat, name: string)
    ensures forall c :: c in Copies(cfg, first, i, name, |cfg.copies|) ==> c.src == i
  {
    forall c | c in Copies(cfg, first, i, name, |cfg.copies|)
      ensures c.src == i
    {
      CopiesAre(cfg, first, i, name, |cfg.copies|, c);
    }
  }

  // They are in the order of the file.
  lemma {:induction false} ColumnsInOrder(cfg: Config, names: seq<string>, i: nat)
    requires i <= |names|
    ensures InOrder(ColumnsUpTo(cfg, names, i))
  {
    if i > 0 {
      var before := ColumnsUpTo(cfg, names, i - 1);
      var more := Copies(cfg, names[0], i - 1, names[i - 1], |cfg.copies|);
      ColumnsInOrder(cfg, names, i - 1);
      ColumnsBelow(cfg, names, i - 1);
      CopiesFrom(cfg, names[0], i - 1, names[i - 1]);
      OrderedWith(before, more, i - 1);
    }
  }

  lemma LayoutIsGood(cfg: Config, header: seq<string>)
    requires MakeLayout(cfg, header).Some?
    ensures GoodLayout(MakeLayout(cfg, header).value)
  {
    var l := MakeLayout(cfg, header).value;
    forall k | 0 <= k < |l.columns|
      ensures l.columns[k].src < l.srcCount
    {
      ColumnsAre(cfg, Renamed(cfg, header), |header|, l.columns[k]);
    }
  }

  // Without any column the first row that has a time stops the program with an
  // index error.
  predicate Fails(l: Layout, items: seq<string>)
    requires GoodLayout(l)
  {
    l.columns == [] && |items| == l.srcCount && items[l.clockSrc] != ""
  }

  predicate NoneFails(l: Layout, lines: seq<seq<string>>) {
    GoodLayout(l) && forall k :: 0 <= k < |lines| ==> !Fails(l, lines[k])
  }

  // ---------------------------------------------------------------- rows of a source

  // Reading a clock cell, converting a cell of a column, showing a time.
  datatype Codec = Codec(clock: string -> real, convert: (nat, string) -> string, show: real -> string)

  datatype Row = Row(time: real, cells: seq<string>)

  // The first k cells of a row in the source's output columns.
  function Mapped(codec: Codec, columns: seq<Column>, items: seq<string>, k: nat): (r: seq<string>)
    requires k <= |columns| && forall j :: 0 <= j < |columns| ==> columns[j].src < |items|
    ensures |r| == k
  {
    if k == 0 then []
    else Mapped(codec, columns, items, k - 1) + [codec.convert(k - 1, items[columns[k - 1].src])]
  }

  // Rows of another length and rows without a time are skipped.
  function Accept(codec: Codec, l: Layout, items: seq<string>): Option<Row>
    requires GoodLayout(l)
  {
    if |items| != l.srcCount || items[l.clockSrc] == "" || l.columns == [] || items[l.clockSrc] == NO_SIG then None
    else
      var time := codec.clock(items[l.clockSrc]);
      Some(Row(time, Mapped(codec, l.columns, items, |l.columns|)[l.clockDst := codec.show(time)]))
  }

  function Accepted(codec: Codec, l: Layout, lines: seq<seq<string>>): seq<Row>
    requires GoodLayout(l)
  {
    if lines == [] then []
    else
      var row := Accept(codec, l, lines[0]);
      (if row.Some? then [row.value] else []) + Accepted(codec, l, lines[1..])
  }

  // A row has as many cells as the header, and a time.
  predicate Acceptable(l: Layout, items: seq<string>)
    requires GoodLayout(l)
  {
    |items| == l.srcCount && items[l.clockSrc] != "" && items[l.clockSrc] != "NO_SIG"
  }

  // The clock column shows the converted time, every other one its own cell.
  predicate Shows(codec: Codec, l: Layout, items: seq<string>, time: real, cells: seq<string>)
    requires GoodLayout(l) && |items| == l.srcCount
  {
    && time == codec.clock(items[l.clockSrc]) && |cells| == |l.columns|
    && forall k :: 0 <= k < |cells| ==>
         cells[k] == if k == l.clockDst then codec.show(time) else codec.convert(k, items[l.columns[k].src])
  }

  lemma {:induction false} MappedAt(codec: Codec, columns: seq<Column>, items: seq<string>, n: nat, k: nat)
    requires k < n <= |columns| && forall j :: 0 <= j < |columns| ==> columns[j].src < |items|
    ensures Mapped(codec, columns, items, n)[k] == codec.convert(k, items[columns[k].src])
  {
    if k < n - 1 {
      MappedAt(codec, columns, items, n - 1, k);
    }
  }

  lemma AcceptIs(codec: Codec, l: Layout, items: seq<string>)
    requires GoodLayout(l) && !Fails(l, items)
    ensures Accept(codec, l, items).Some? <==> Acceptable(l, items)
    ensures Accept(codec, l, items).Some? ==>
              var row := Accept(codec, l, items).value; Shows(codec, l, items, row.time, row.cells)
  {
    if Accept(codec, l, items).Some? {
      forall k | 0 <= k < |l.columns|
        ensures Mapped(codec, l.columns, items, |l.columns|)[k] == codec.convert(k, items[l.columns[k].src])
      {
        MappedAt(codec, l.columns, items, |l.columns|, k);
      }
    }
  }

  // These are, in order, the lines that are rows.
  predicate Rows(l: Layout, lines: seq<seq<string>>, at: seq<nat>)
    requires GoodLayout(l)
  {
    && (forall k :: 0 <= k < |at| ==> at[k] < |lines|)
    && (forall j, k :: 0 <= j < k < |at| ==> at[j] < at[k])
    && forall i :: 0 <= i < |lines| ==> (i in at <==> Acceptable(l, lines[i]))
  }

  // The cells are those of these lines.
  predicate ShowLines(codec: Codec, l: Layout, lines: seq<seq<string>>, at: seq<nat>, cells: seq<seq<string>>)
    requires GoodLayout(l)
  {
    && |cells| == |at|
    && forall k :: 0 <= k < |at| ==>
         && at[k] < |lines| && |lines[at[k]]| == l.srcCount
         && Shows(codec, l, lines[at[k]], codec.clock(lines[at[k]][l.clockSrc]), cells[k])
  }

  ghost predicate ShowRows(codec: Codec, l: Layout, lines: seq<seq<string>>, cells: seq<seq<string>>)
    requires GoodLayout(l)
  {
    exists at :: Rows(l, lines, at) && ShowLines(codec, l, lines, at, cells)
  }

  // ---------------------------------------------------------------- merging

  // The part of every source in a merged row; None fills its columns.
  datatype Merged = Merged(time: real, parts: seq<Option<seq<string>>>)

  function Total(qs: seq<seq<Row>>): nat {
    if qs == [] then 0 else |qs[0]| + Total(qs[1..])
  }

  // The least time at the head of a queue.
  function Least(qs: seq<seq<Row>>): Option<real> {
    if qs == [] then None
    else
      var t := Least(qs[1..]);
      if qs[0] == [] then t
      else if t.None? || qs[0][0].time < t.value then Some(qs[0][0].time) else t
  }

  predicate Due(q: seq<Row>, t: real) {
    q != [] && q[0].time <= t
  }

  function Part(q: seq<Row>, t: real): Option<seq<string>> {
    if Due(q, t) then Some(q[0].cells) else None
  }

  function Rest(q: seq<Row>, t: real): seq<Row> {
    if Due(q, t) then q[1..] else q
  }

  function Parts(qs: seq<seq<Row>>, t: real): seq<Option<seq<string>>> {
    seq(|qs|, i requires 0 <= i < |qs| => Part(qs[i], t))
  }

  function Advanced(qs: seq<seq<Row>>, t: real): seq<seq<Row>> {
    seq(|qs|, i requires 0 <= i < |qs| => Rest(qs[i], t))
  }

  lemma {:induction false} LeastIsLeast(qs: seq<seq<Row>>)
    ensures Least(qs).None? <==> forall i :: 0 <= i < |qs| ==> qs[i] == []
    ensures Least(qs).Some? ==>
              && (forall i :: 0 <= i < |qs| && qs[i] != [] ==> Least(qs).value <= qs[i][0].time)
              && (exists i :: 0 <= i < |qs| && qs[i] != [] && qs[i][0].time == Least(qs).value)
  {
    if qs != [] {
      LeastIsLeast(qs[1..]);
      assert forall i :: 1 <= i < |qs| ==> qs[i] == qs[1..][i - 1];
    }
  }

  lemma {:induction false} TotalLess(qs: seq<seq<Row>>, t: real)
    ensures Total(Advanced(qs, t)) <= Total(qs)
    ensures (exists i :: 0 <= i < |qs| && Due(qs[i], t)) ==> Total(Advanced(qs, t)) < Total(qs)
  {
    if qs != [] {
      TotalLess(qs[1..], t);
      assert Advanced(qs, t)[1..] == Advanced(qs[1..], t);
      assert forall i :: 1 <= i < |qs| ==> qs[i] == qs[1..][i - 1];
    }
  }

  function Merge(qs: seq<seq<Row>>): seq<Merged>
    decreases Total(qs)
  {
    var t := Least(qs);
    if t.None? then []
    else
      LeastIsLeast(qs);
      TotalLess(qs, t.value);
      [Merged(t.value, Parts(qs, t.value))] + Merge(Advanced(qs, t.value))
  }

  // ---------------------------------------------------------------- projecting a merged row

  // The columns of source i are those from Start(widths, i) on.
  function Start(widths: seq<nat>, i: nat): nat
    requires i <= |widths|
  {
    if i == 0 then 0 else Start(widths, i - 1) + widths[i - 1]
  }

  function NoSigs(width: nat): (r: seq<string>)
    ensures |r| == width
  {
    if width == 0 then [] else NoSigs(width - 1) + [NO_SIG]
  }

  function CellsUpTo(parts: seq<Option<seq<string>>>, widths: seq<nat>, i: nat): seq<string>
    requires i <= |parts| && i <= |widths|
  {
    if i == 0 then []
    else CellsUpTo(parts, widths, i - 1) + Fill(parts[i - 1], widths[i - 1])
  }

  // Joining the lines of all sources.
  function Join(lines: seq<seq<string>>): seq<string> {
    if lines == [] then [] else Join(lines[..|lines| - 1]) + lines[|lines| - 1]
  }

  lemma {:induction false} JoinIsCells(lines: seq<seq<string>>, parts: seq<Option<seq<string>>>, widths: seq<nat>)
    requires |lines| <= |parts| && |lines| <= |widths|
    requires forall k :: 0 <= k < |lines| ==> lines[k] == Fill(parts[k], widths[k])
    ensures Join(lines) == CellsUpTo(parts, widths, |lines|)
  {
    if lines != [] {
      JoinIsCells(lines[..|lines| - 1], parts, widths);
    }
  }

  function Cells(m: Merged, widths: seq<nat>): seq<string> {
    if |m.parts| == |widths| then CellsUpTo(m.parts, widths, |widths|) else []
  }

  function Lines(ms: seq<Merged>, widths: seq<nat>): seq<seq<string>> {
    if ms == [] then [] else [Cells(ms[0], widths)] + Lines(ms[1..], widths)
  }

  // The columns of source i, if it contributed to the line: if it has a time in
  // its clock column.
  function Share(line: seq<string>, at: nat, width: nat, clock: nat): seq<seq<string>> {
    if clock < width && at + width <= |line| && line[at + clock] != NO_SIG then [line[at..at + width]] else []
  }

  // What the lines hold of source i.
  function Project(lines: seq<seq<string>>, widths: seq<nat>, clocks: seq<nat>, i: nat): seq<seq<string>>
    requires i < |widths| == |clocks|
  {
    if lines == [] then []
    else Share(lines[0], Start(widths, i), widths[i], clocks[i]) + Project(lines[1..], widths, clocks, i)
  }

  predicate Shaped(parts: seq<Option<seq<string>>>, widths: seq<nat>) {
    |parts| == |widths| && forall i :: 0 <= i < |parts| && parts[i].Some? ==> |parts[i].value| == widths[i]
  }

  lemma {:induction false} NoSigsAre(width: nat, k: nat)
    requires k < width
    ensures NoSigs(width)[k] == "NO_SIG"
  {
    if k < width - 1 {
      NoSigsAre(width - 1, k);
    }
  }

  function Fill(part: Option<seq<string>>, width: nat): seq<string> {
    if part.Some? then part.value else NoSigs(width)
  }

  lemma {:induction false} CellsWidth(parts: seq<Option<seq<string>>>, widths: seq<nat>, i: nat)
    requires Shaped(parts, widths) && i <= |parts|
    ensures |CellsUpTo(parts, widths, i)| == Start(widths, i)
  {
    if i > 0 {
      CellsWidth(parts, widths, i - 1);
    }
  }

  predicate HoldsAt(all: seq<string>, at: nat, part: seq<string>) {
    at + |part| <= |all| && all[at..at + |part|] == part
  }

  lemma HeldBefore(all: seq<string>, at: nat, part: seq<string>, more: seq<string>)
    requires HoldsAt(all, at, part)
    ensures HoldsAt(all + more, at, part)
  {
  }

  lemma HeldLast(before: seq<string>, part: seq<string>)
    ensures HoldsAt(before + part, |before|, part)
  {
  }

  // The columns of source j hold its part.
  lemma {:induction false} CellsAt(parts: seq<Option<seq<string>>>, widths: seq<nat>, i: nat, j: nat)
    requires Shaped(parts, widths) && j < i <= |parts|
    ensures HoldsAt(CellsUpTo(parts, widths, i), Start(widths, j), Fill(parts[j], widths[j]))
    decreases i
  {
    var before, part := CellsUpTo(parts, widths, i - 1), Fill(parts[i - 1], widths[i - 1]);
    if j < i - 1 {
      CellsAt(parts, widths, i - 1, j);
      HeldBefore(before, Start(widths, j), Fill(parts[j], widths[j]), part);
    } else {
      CellsWidth(parts, widths, j);
      HeldLast(before, part);
    }
  }

  // Every row has its source's columns and a time in the clock column.
  predicate GoodQueue(q: seq<Row>, width: nat, clock: nat) {
    forall k :: 0 <= k < |q| ==> |q[k].cells| == width && clock < width && q[k].cells[clock] != NO_SIG
  }

  predicate GoodQueues(qs: seq<seq<Row>>, widths: seq<nat>, clocks: seq<nat>) {
    && |qs| == |widths| == |clocks|
    && forall i :: 0 <= i < |qs| ==> clocks[i] < widths[i] && GoodQueue(qs[i], widths[i], clocks[i])
  }

  lemma GoodQueueMore(row: Row, q: seq<Row>, width: nat, clock: nat)
    requires GoodQueue(q, width, clock) && |row.cells| == width && clock < width && row.cells[clock] != NO_SIG
    ensures GoodQueue([row] + q, width, clock)
  {
  }

  lemma AcceptShowsTime(codec: Codec, l: Layout, items: seq<string>)
    requires GoodLayout(l) && Accept(codec, l, items).Some?
    ensures var row := Accept(codec, l, items).value;
            |row.cells| == |l.columns| && l.clockDst < |l.columns| && row.cells[l.clockDst] == codec.show(row.time)
  {
  }

  // What a source accepts can be told from filled columns.
  lemma {:induction false} AcceptedIsGood(codec: Codec, l: Layout, lines: seq<seq<string>>)
    requires GoodLayout(l) && forall t :: codec.show(t) != NO_SIG
    ensures GoodQueue(Accepted(codec, l, lines), |l.columns|, l.clockDst)
  {
    if lines != [] {
      AcceptedIsGood(codec, l, lines[1..]);
      var row, rest := Accept(codec, l, lines[0]), Accepted(codec, l, lines[1..]);
      if row.Some? {
        AcceptShowsTime(codec, l, lines[0]);
        GoodQueueMore(row.value, rest, |l.columns|, l.clockDst);
      } else {
        assert [] + rest == rest;
      }
    }
  }

  function CellsOf(q: seq<Row>): seq<seq<string>> {
    if q == [] then [] else [q[0].cells] + CellsOf(q[1..])
  }

  function After(at: seq<nat>): (r: seq<nat>)
    ensures |r| == |at| && forall k :: 0 <= k < |r| ==> r[k] == at[k] + 1
  {
    seq(|at|, k requires 0 <= k < |at| => at[k] + 1)
  }

  lemma InAfter(at: seq<nat>, i: nat)
    ensures i + 1 in After(at) <==> i in at
    ensures 0 !in After(at)
  {
    if i in at {
      var k :| 0 <= k < |at| && at[k] == i;
      assert After(at)[k] == i + 1;
    }
  }

  lemma RowsAfter(l: Layout, lines: seq<seq<string>>, at: seq<nat>)
    requires GoodLayout(l) && lines != [] && Rows(l, lines[1..], at)
    ensures Rows(l, lines, (if Acceptable(l, lines[0]) then [0] else []) + After(at))
  {
    var first: seq<nat> := if Acceptable(l, lines[0]) then [0] else [];
    forall i | 0 <= i < |lines|
      ensures i in first + After(at) <==> Acceptable(l, lines[i])
    {
      if i == 0 {
        InAfter(at, 0);
      } else {
        InAfter(at, i - 1);
        assert lines[i] == lines[1..][i - 1];
      }
      assert i in first + After(at) <==> i in first || i in After(at);
    }
  }

  lemma ShowLinesAfter(codec: Codec, l: Layout, lines: seq<seq<string>>, at: seq<nat>, cells: seq<seq<string>>)
    requires GoodLayout(l) && lines != [] && ShowLines(codec, l, lines[1..], at, cells)
    ensures ShowLines(codec, l, lines, After(at), cells)
  {
    forall k | 0 <= k < |at|
      ensures lines[After(at)[k]] == lines[1..][at[k]]
    {
    }
  }

  lemma ShowFirst(codec: Codec, l: Layout, lines: seq<seq<string>>, at: seq<nat>, cells: seq<seq<string>>, row: Row)
    requires GoodLayout(l) && lines != [] && ShowLines(codec, l, lines, at, cells)
    requires |lines[0]| == l.srcCount && Shows(codec, l, lines[0], row.time, row.cells)
    ensures ShowLines(codec, l, lines, [0] + at, [row.cells] + cells)
  {
  }

  lemma CellsOfMore(row: Row, q: seq<Row>)
    ensures CellsOf([row] + q) == [row.cells] + CellsOf(q)
  {
    assert ([row] + q)[1..] == q;
  }

  // The rows a source accepts are those of its lines, in order, with the cells
  // in its columns.
  lemma {:induction false} AcceptedShow(codec: Codec, l: Layout, lines: seq<seq<string>>) returns (at: seq<nat>)
    requires NoneFails(l, lines)
    ensures Rows(l, lines, at) && ShowLines(codec, l, lines, at, CellsOf(Accepted(codec, l, lines)))
  {
    if lines == [] {
      at := [];
    } else {
      at := AcceptedShow(codec, l, lines[1..]);
      var q, row := Accepted(codec, l, lines[1..]), Accept(codec, l, lines[0]);
      AcceptIs(codec, l, lines[0]);
      RowsAfter(l, lines, at);
      ShowLinesAfter(codec, l, lines, at, CellsOf(q));
      at := After(at);
      if row.Some? {
        CellsOfMore(row.value, q);
        ShowFirst(codec, l, lines, at, CellsOf(q), row.value);
        at := [0] + at;
      } else {
        assert [] + q == q && [] + at == at;
      }
    }
  }

  lemma AdvancedGood(qs: seq<seq<Row>>, widths: seq<nat>, clocks: seq<nat>, t: real)
    requires GoodQueues(qs, widths, clocks)
    ensures GoodQueues(Advanced(qs, t), widths, clocks) && Shaped(Parts(qs, t), widths)
  {
  }

  lemma ShareOfPart(line: seq<string>, at: nat, width: nat, clock: nat, part: Option<seq<string>>)
    requires clock < width && HoldsAt(line, at, Fill(part, width))
    requires part.Some? ==> |part.value| == width && part.value[clock] != NO_SIG
    ensures Share(line, at, width, clock) == if part.Some? then [part.value] else []
  {
    assert line[at + clock] == line[at..at + width][clock];
    NoSigsAre(width, clock);
  }

  // Source i has a time in its clock column exactly when it is due.
  lemma FirstShare(qs: seq<seq<Row>>, widths: seq<nat>, clocks: seq<nat>, i: nat, t: real)
    requires GoodQueues(qs, widths, clocks) && i < |qs|
    ensures Share(Cells(Merged(t, Parts(qs, t)), widths), Start(widths, i), widths[i], clocks[i])
         == if Due(qs[i], t) then [qs[i][0].cells] else []
  {
    var parts := Parts(qs, t);
    AdvancedGood(qs, widths, clocks, t);
    CellsAt(parts, widths, |widths|, i);
    assert GoodQueue(qs[i], widths[i], clocks[i]);
    ShareOfPart(CellsUpTo(parts, widths, |widths|), Start(widths, i), widths[i], clocks[i], parts[i]);
  }

  // Projecting the merged lines on a source gives back its rows, in order.
  lemma {:induction false} ProjectionUndoesMerge(qs: seq<seq<Row>>, widths: seq<nat>, clocks: seq<nat>, i: nat)
    requires GoodQueues(qs, widths, clocks) && i < |qs|
    ensures Project(Lines(Merge(qs), widths), widths, clocks, i) == CellsOf(qs[i])
    decreases Total(qs)
  {
    LeastIsLeast(qs);
    var least := Least(qs);
    if least.Some? {
      var t := least.value;
      var rest := Advanced(qs, t);
      AdvancedGood(qs, widths, clocks, t);
      TotalLess(qs, t);
      ProjectionUndoesMerge(rest, widths, clocks, i);
      FirstShare(qs, widths, clocks, i, t);
      var line, lines := Cells(Merged(t, Parts(qs, t)), widths), Lines(Merge(rest), widths);
      assert Merge(qs)[1..] == Merge(rest);
      assert Lines(Merge(qs), widths) == [line] + lines;
      assert ([line] + lines)[1..] == lines;
    }
  }

  // ---------------------------------------------------------------- merged times

  predicate Increasing(q: seq<Row>) {
    forall j, k :: 0 <= j < k < |q| ==> q[j].time < q[k].time
  }

  predicate Above(qs: seq<seq<Row>>, t: real) {
    forall i :: 0 <= i < |qs| && qs[i] != [] ==> t < qs[i][0].time
  }

  predicate AllIncreasing(qs: seq<seq<Row>>) {
    forall i :: 0 <= i < |qs| ==> Increasing(qs[i])
  }

  lemma AdvancedIncreasing(qs: seq<seq<Row>>, t: real)
    requires AllIncreasing(qs) && Least(qs) == Some(t)
    ensures AllIncreasing(Advanced(qs, t)) && Above(Advanced(qs, t), t)
  {
    LeastIsLeast(qs);
    var rest := Advanced(qs, t);
    forall i | 0 <= i < |qs|
      ensures Increasing(rest[i]) && (rest[i] != [] ==> t < rest[i][0].time)
    {
      assert Increasing(qs[i]);
    }
  }

  lemma {:induction false} TimesAbove(qs: seq<seq<Row>>, t: real, k: nat)
    requires AllIncreasing(qs) && Above(qs, t) && k < |Merge(qs)|
    ensures t < Merge(qs)[k].time
    decreases k
  {
    LeastIsLeast(qs);
    var least := Least(qs).value;
    AdvancedIncreasing(qs, least);
    if k > 0 {
      TimesAbove(Advanced(qs, least), least, k - 1);
    }
  }

  // Sources with increasing times merge to increasing times.
  lemma {:induction false} MergedTimesIncrease(qs: seq<seq<Row>>, j: nat, k: nat)
    requires AllIncreasing(qs) && j < k < |Merge(qs)|
    ensures Merge(qs)[j].time < Merge(qs)[k].time
    decreases j
  {
    var t := Least(qs).value;
    AdvancedIncreasing(qs, t);
    if j == 0 {
      TimesAbove(Advanced(qs, t), t, k - 1);
    } else {
      MergedTimesIncrease(Advanced(qs, t), j - 1, k - 1);
    }
  }

  predicate Occurs(qs: seq<seq<Row>>, t: real) {
    exists i, k :: 0 <= i < |qs| && 0 <= k < |qs[i]| && qs[i][k].time == t
  }

  lemma OccursNowOrLater(qs: seq<seq<Row>>, t: real, least: real)
    requires Least(qs) == Some(least)
    ensures Occurs(qs, t) <==> t == least || Occurs(Advanced(qs, least), t)
  {
    LeastIsLeast(qs);
    var rest: seq<seq<Row>> := Advanced(qs, least);
    if Occurs(qs, t) && t != least {
      var i, k :| 0 <= i < |qs| && 0 <= k < |qs[i]| && qs[i][k].time == t;
      var k' := if Due(qs[i], least) then k - 1 else k;
      assert rest[i][k'].time == t;
    }
    if Occurs(rest, t) {
      var i, k :| 0 <= i < |rest| && 0 <= k < |rest[i]| && rest[i][k].time == t;
      var k' := if Due(qs[i], least) then k + 1 else k;
      assert qs[i][k'].time == t;
    }
  }

  // The merged times are the times of the sources, and no others, whatever
  // their order.
  lemma {:induction false} MergedTimesAreAll(qs: seq<seq<Row>>, t: real)
    ensures Occurs(qs, t) <==> exists k :: 0 <= k < |Merge(qs)| && Merge(qs)[k].time == t
    decreases Total(qs)
  {
    LeastIsLeast(qs);
    var least := Least(qs);
    if least.Some? {
      var rest := Advanced(qs, least.value);
      TotalLess(qs, least.value);
      MergedTimesAreAll(rest, t);
      OccursNowOrLater(qs, t, least.value);
      HeadOrTail(Merge(qs), t);
      assert Merge(qs)[1..] == Merge(rest);
    }
  }

  lemma HeadOrTail(ms: seq<Merged>, t: real)
    requires ms != []
    ensures (exists k :: 0 <= k < |ms| && ms[k].time == t)
       <==> ms[0].time == t || exists k :: 0 <= k < |ms[1..]| && ms[1..][k].time == t
  {
    if exists k :: 0 <= k < |ms| && ms[k].time == t {
      var k :| 0 <= k < |ms| && ms[k].time == t;
      assert k > 0 ==> ms[1..][k - 1].time == t;
    }
  }

  // ---------------------------------------------------------------- the program

  function Names(l: Layout): seq<string> {
    seq(|l.columns|, k requires 0 <= k < |l.columns| => l.columns[k].name)
  }

  // The program gets through these lines without an error.
  predicate Readable(cfg: Config, lines: seq<seq<string>>)
    requires lines != []
  {
    MakeLayout(cfg, lines[0]).Some? && NoneFails(MakeLayout(cfg, lines[0]).value, lines[1..])
  }

  class Source {
    const codec: Codec
    const cfg: Config
    var unread: seq<seq<string>>
    var open: bool
    var time: Option<real>
    var line: Option<seq<string>>
    var linenumber: nat
    var layout: Layout

    // Between calls, once the header has been read.
    ghost predicate Valid()
      reads this
    {
      && linenumber > 0 && NoneFails(layout, unread)
      && (line.None? ==> !open)
      && (!open ==> unread == [] && line.None? && time.None?)
    }

    // There was not even a header.
    ghost predicate Closed()
      reads this
    {
      !open && line.None? && time.None? && unread == [] && linenumber == 0
    }

    // The header has been taken.
    ghost predicate AtRows()
      reads this
    {
      Valid() && (line.Some? ==> time.Some?)
    }

    // The accepted rows not yet taken.
    ghost function Queue(): seq<Row>
      requires AtRows()
      reads this
    {
      (if line.Some? then [Row(time.value, line.value)] else []) + Accepted(codec, layout, unread)
    }

    constructor (codec: Codec, cfg: Config, lines: seq<seq<string>>)
      requires lines != [] ==> Readable(cfg, lines)
      ensures this.codec == codec && this.cfg == cfg
      ensures if lines == [] then Closed()
              else Valid() && layout == MakeLayout(cfg, lines[0]).value && line == Some(Names(layout))
                   && time == None && unread == lines[1..]
    {
      this.codec, this.cfg, unread, open := codec, cfg, lines, true;
      time, line, linenumber, layout := None, None, 0, Layout([], 0, 0, 0);
      new;
      Advance();
    }

    method AdvanceLine()
      requires linenumber > 0 ==> NoneFails(layout, unread)
      requires linenumber == 0 && unread != [] ==> MakeLayout(cfg, unread[0]).Some?
      modifies this
      ensures if !old(open) || old(unread) == [] then
                && time.None? && line.None? && !open
                && unread == old(unread) && linenumber == old(linenumber) && layout == old(layout)
              else
                && open && unread == old(unread)[1..] && linenumber == old(linenumber) + 1
                && if linenumber == 1 then
                     && layout == MakeLayout(cfg, old(unread)[0]).value
                     && line == Some(Names(layout)) && time == None
                   else
                     && layout == old(layout)
                     && match Accept(codec, layout, old(unread)[0])
                        case Some(row) => time == Some(row.time) && line == Some(row.cells)
                        case None => time == None && line == None
      ensures old(open) && old(unread) != [] && old(linenumber) > 0 ==>
                && (line.Some? <==> Acceptable(layout, old(unread)[0]))
                && (line.Some? ==> time.Some? && Shows(codec, layout, old(unread)[0], time.value, line.value))
    {
      time, line := None, None;
      if open {
        if unread == [] {
          open := false;
        } else {
          var items := unread[0];
          unread, linenumber := unread[1..], linenumber + 1;
          if linenumber == 1 {
            layout := MakeLayout(cfg, items).value;
            line := Some(Names(layout));
          } else {
            AcceptIs(codec, layout, items);
            var row := Accept(codec, layout, items);
            if row.Some? {
              time, line := Some(row.value.time), Some(row.value.cells);
            }
          }
        }
      }
    }

    // Reads on to the header or to the next accepted row.
    method Advance()
      requires linenumber > 0 ==> NoneFails(layout, unread) && (!open ==> unread == [] && time.None?)
      requires linenumber == 0 ==> Closed() || (open && (unread != [] ==> Readable(cfg, unread)))
      modifies this
      ensures old(linenumber) == 0 ==>
                if old(unread) == [] then Closed()
                else Valid() && layout == MakeLayout(cfg, old(unread)[0]).value && line == Some(Names(layout))
                     && time == None && unread == old(unread)[1..]
      ensures old(linenumber) > 0 ==> AtRows() && layout == old(layout) && Queue() == Accepted(codec, layout, old(unread))
    {
      line := None;
      if linenumber == 0 && unread != [] {
        LayoutIsGood(cfg, unread[0]);
      }
      while open && line.None?
        invariant linenumber > 0 ==> NoneFails(layout, unread)
        invariant !open ==> unread == [] && line.None? && time.None?
        invariant old(linenumber) == 0 ==>
                    if linenumber == 0 then unread == old(unread) && line.None? && (!open ==> unread == [])
                    else linenumber == 1 && old(unread) != [] && open && layout == MakeLayout(cfg, old(unread)[0]).value
                         && line == Some(Names(layout)) && time == None && unread == old(unread)[1..]
        invariant old(linenumber) > 0 ==> linenumber > 0 && layout == old(layout) && (line.Some? ==> time.Some?)
        invariant old(linenumber) > 0 ==>
                    Accepted(codec, layout, old(unread))
                    == (if line.Some? then [Row(time.value, line.value)] else []) + Accepted(codec, layout, unread)
        decreases |unread|, open
      {
        AdvanceLine();
      }
    }

    method GetLineAndAdvance() returns (result: Option<seq<string>>)
      requires Valid() || Closed()
      modifies this
      ensures result == old(line)
      ensures old(Closed()) ==> Closed()
      ensures old(Valid()) ==> AtRows() && layout == old(layout) && Queue() == Accepted(codec, layout, old(unread))
    {
      result := line;
      Advance();
    }

    // The header, if there is one, is next and these rows follow it.
    ghost predicate AtHeader(head: Option<seq<string>>, q: seq<Row>, width: nat)
      reads this
    {
      && line == head
      && if head.None? then Closed()
         else Valid() && Accepted(codec, layout, unread) == q && |layout.columns| == width
    }

    ghost predicate PastHeader(head: Option<seq<string>>, q: seq<Row>, width: nat)
      reads this
    {
      head.Some? ==> At(q, width)
    }

    ghost predicate At(q: seq<Row>, width: nat)
      reads this
    {
      AtRows() && Queue() == q && |layout.columns| == width
    }

    // The cells of this source in a row merged for this time.
    method CellsFor(now: real, ghost q: seq<Row>, ghost width: nat) returns (cells: seq<string>)
      requires At(q, width)
      modifies this
      ensures At(Rest(q, now), width) && cells == Fill(Part(q, now), width)
    {
      if time.Some? && line.Some? && time.value <= now {
        var taken := GetLineAndAdvance();
        cells := taken.value;
        assert Queue() == q[1..];
      } else {
        cells := NoSigs(|layout.columns|);
      }
    }
  }

  // A header that is missing or empty stops the merger.
  predicate AllHeaders(heads: seq<Option<seq<string>>>) {
    forall i :: 0 <= i < |heads| ==> heads[i].Some? && heads[i].value != [""] && heads[i].value != []
  }

  function Values(heads: seq<Option<seq<string>>>): seq<seq<string>>
    requires AllHeaders(heads)
  {
    seq(|heads|, i requires 0 <= i < |heads| => heads[i].value)
  }

  // The headers of the first i sources have been taken.
  ghost predicate HeadersTaken(sources: seq<Source>, i: nat, heads: seq<Option<seq<string>>>, qs: seq<seq<Row>>,
                               widths: seq<nat>)
    reads sources
  {
    && |heads| == |qs| == |widths| == |sources|
    && (forall k {:trigger sources[k]} :: 0 <= k < |sources| && k < i ==> sources[k].PastHeader(heads[k], qs[k], widths[k]))
    && (forall k {:trigger sources[k]} :: 0 <= k < |sources| && i <= k ==> sources[k].AtHeader(heads[k], qs[k], widths[k]))
  }

  method TakeHeader(sources: seq<Source>, i: nat, ghost heads: seq<Option<seq<string>>>,
                    ghost qs: seq<seq<Row>>, ghost widths: seq<nat>) returns (head: Option<seq<string>>)
    requires i < |sources| && Apart(sources) && HeadersTaken(sources, i, heads, qs, widths)
    modifies sources[i]
    ensures head == heads[i] && HeadersTaken(sources, i + 1, heads, qs, widths)
  {
    assert forall k {:trigger sources[k]} :: 0 <= k < |sources| && k != i ==> sources[k] != sources[i];
    head := sources[i].GetLineAndAdvance();
    assert forall k {:trigger sources[k]} :: 0 <= k < |sources| && k != i ==> unchanged(sources[k]);
  }

  method TakeHeaders(sources: seq<Source>, ghost heads: seq<Option<seq<string>>>, ghost qs: seq<seq<Row>>,
                     ghost widths: seq<nat>)
    returns (taken: seq<Option<seq<string>>>)
    requires Apart(sources) && HeadersTaken(sources, 0, heads, qs, widths)
    modifies sources
    ensures taken == heads && HeadersTaken(sources, |sources|, heads, qs, widths)
  {
    taken := [];
    while |taken| < |sources|
      invariant |taken| <= |sources| && HeadersTaken(sources, |taken|, heads, qs, widths)
      invariant taken == heads[..|taken|]
    {
      var head := TakeHeader(sources, |taken|, heads, qs, widths);
      taken := taken + [head];
    }
  }

  // Of these sources the first i have been asked for their cells.
  ghost predicate Asked(sources: seq<Source>, i: nat, now: real, qs: seq<seq<Row>>, widths: seq<nat>)
    reads sources
  {
    && |qs| == |widths| == |sources|
    && forall k {:trigger sources[k]} :: 0 <= k < |sources| ==>
         sources[k].At(if k < i then Rest(qs[k], now) else qs[k], widths[k])
  }

  ghost predicate Apart(sources: seq<Source>) {
    forall i, j :: 0 <= i < j < |sources| ==> sources[i] != sources[j]
  }

  method Ask(sources: seq<Source>, i: nat, now: real, ghost qs: seq<seq<Row>>, ghost widths: seq<nat>)
    returns (cells: seq<string>)
    requires i < |sources| && Apart(sources) && Asked(sources, i, now, qs, widths)
    modifies sources[i]
    ensures Asked(sources, i + 1, now, qs, widths) && cells == Fill(Part(qs[i], now), widths[i])
  {
    assert forall k {:trigger sources[k]} :: 0 <= k < |sources| && k != i ==> sources[k] != sources[i];
    cells := sources[i].CellsFor(now, qs[i], widths[i]);
    assert forall k {:trigger sources[k]} :: 0 <= k < |sources| && k != i ==> unchanged(sources[k]);
  }

  // The lines of the first sources for a merged row.
  predicate Collected(lines: seq<seq<string>>, now: real, qs: seq<seq<Row>>, widths: seq<nat>) {
    && |lines| <= |qs| == |widths|
    && forall k {:trigger lines[k]} :: 0 <= k < |lines| ==> lines[k] == Fill(Part(qs[k], now), widths[k])
  }

  lemma CollectedNext(lines: seq<seq<string>>, line: seq<string>, now: real, qs: seq<seq<Row>>, widths: seq<nat>)
    requires Collected(lines, now, qs, widths) && |lines| < |qs|
    requires line == Fill(Part(qs[|lines|], now), widths[|lines|])
    ensures Collected(lines + [line], now, qs, widths)
  {
  }

  method CollectLines(sources: seq<Source>, now: real, ghost qs: seq<seq<Row>>, ghost widths: seq<nat>)
    returns (lines: seq<seq<string>>)
    requires Apart(sources) && Asked(sources, 0, now, qs, widths)
    modifies sources
    ensures Asked(sources, |sources|, now, qs, widths)
    ensures |lines| == |sources| && Collected(lines, now, qs, widths)
  {
    lines := [];
    while |lines| < |sources|
      invariant Asked(sources, |lines|, now, qs, widths)
      invariant Collected(lines, now, qs, widths)
    {
      var line := Ask(sources, |lines|, now, qs, widths);
      CollectedNext(lines, line, now, qs, widths);
      lines := lines + [line];
    }
  }

  class Merger {
    var sources: seq<Source>
    var linenumber: nat
    var time: Option<real>
    var line: Option<seq<string>>

    // The sources are at these rows and have these numbers of columns.
    ghost predicate Holds(qs: seq<seq<Row>>, widths: seq<nat>)
      reads this, sources
    {
      && |qs| == |widths| == |sources| && Apart(sources)
      && forall i {:trigger sources[i]} :: 0 <= i < |sources| ==> sources[i].At(qs[i], widths[i])
    }

    constructor (sources: seq<Source>)
      ensures this.sources == sources && linenumber == 0 && time == None && line == None
    {
      this.sources, linenumber, time, line := sources, 0, None, None;
    }

    // The least time at the head of a source.
    method MinTime(ghost qs: seq<seq<Row>>, ghost widths: seq<nat>) returns (t: Option<real>)
      requires Holds(qs, widths)
      ensures t == Least(qs)
    {
      t := None;
      for i := |sources| downto 0
        invariant t == Least(qs[i..])
      {
        var s := sources[i].time;
        assert qs[i..][1..] == qs[i + 1..] && qs[i..][0] == qs[i];
        if sources[i].line.Some? && s.Some? && (t.None? || s.value < t.value) {
          t := s;
        }
      }
      assert qs[0..] == qs;
    }

    // One merged row; without any time left the merger closes.
    method AdvanceRow(ghost qs: seq<seq<Row>>, ghost widths: seq<nat>)
      requires linenumber > 0 && Holds(qs, widths)
      modifies this, sources
      ensures time == Least(qs)
      ensures if time.None? then line == None && sources == []
              else
                && sources == old(sources) && linenumber == old(linenumber) + 1
                && line == Some(Cells(Merged(time.value, Parts(qs, time.value)), widths))
                && Holds(Advanced(qs, time.value), widths)
    {
      line := None;
      time := MinTime(qs, widths);
      if time.None? {
        sources := [];
        return;
      }
      var lines := CollectLines(sources, time.value, qs, widths);
      JoinIsCells(lines, Parts(qs, time.value), widths);
      line := Some(Join(lines));
      linenumber := linenumber + 1;
    }

    // The header line; the merger closes if a source has none.
    method AdvanceHeader(ghost heads: seq<Option<seq<string>>>, ghost qs: seq<seq<Row>>, ghost widths: seq<nat>)
      requires linenumber == 0 && Apart(sources) && HeadersTaken(sources, 0, heads, qs, widths)
      modifies this, sources
      ensures if AllHeaders(heads) then
                sources == old(sources) && linenumber == 1 && line == Some(Join(Values(heads))) && Holds(qs, widths)
              else line == None && sources == []
    {
      time, line := None, None;
      var taken := TakeHeaders(sources, heads, qs, widths);
      if AllHeaders(taken) {
        line := Some(Join(Values(taken)));
        linenumber := 1;
      } else {
        sources := [];
      }
    }

    // One merged row, as the first of all the rows these queues merge to.
    method NextRow(ghost q: seq<seq<Row>>, ghost widths: seq<nat>) returns (ghost left: seq<seq<Row>>)
      requires linenumber > 0 && Holds(q, widths)
      modifies this, sources
      ensures Lines(Merge(q), widths) == if line.Some? then [line.value] + Lines(Merge(left), widths) else []
      ensures line.Some? ==>
                && linenumber > 0 && sources == old(sources)
                && Holds(left, widths) && Total(left) < Total(q)
    {
      AdvanceRow(q, widths);
      NextLines(q, widths);
      left := if time.Some? then Advanced(q, time.value) else q;
    }

    // All the merged rows.
    method MergeRows(ghost qs: seq<seq<Row>>, ghost widths: seq<nat>) returns (lines: seq<seq<string>>)
      requires linenumber > 0 && Holds(qs, widths)
      modifies this, sources
      ensures lines == Lines(Merge(qs), widths)
    {
      lines := [];
      var mine := sources;
      ghost var q := NextRow(qs, widths);
      ghost var rest := Lines(Merge(qs), widths);
      while line.Some?
        invariant line.Some? ==> linenumber > 0 && sources == mine && Holds(q, widths)
        invariant rest == if line.Some? then [line.value] + Lines(Merge(q), widths) else []
        invariant lines + rest == Lines(Merge(qs), widths)
        decreases line.Some?, Total(q)
      {
        ghost var later := Lines(Merge(q), widths);
        Regroup(lines, [line.value], later);
        lines, rest := lines + [line.value], later;
        q := NextRow(q, widths);
      }
    }

    // Everything the merger yields: the header line and the merged rows.  An
    // empty line, the header of no sources, ends it.
    method MergeAll(ghost heads: seq<Option<seq<string>>>, ghost qs: seq<seq<Row>>, ghost widths: seq<nat>)
      returns (lines: seq<seq<string>>)
      requires linenumber == 0 && Apart(sources) && HeadersTaken(sources, 0, heads, qs, widths)
      modifies this, sources
      ensures lines == if heads != [] && AllHeaders(heads) then [Join(Values(heads))] + Lines(Merge(qs), widths) else []
    {
      if AllHeaders(heads) {
        JoinOfHeaders(heads);
      }
      AdvanceHeader(heads, qs, widths);
      if line.None? || line.value == [] {
        return [];
      }
      var header := line.value;
      lines := MergeRows(qs, widths);
      lines := [header] + lines;
    }
  }

  lemma Regroup(a: seq<seq<string>>, b: seq<seq<string>>, c: seq<seq<string>>)
    ensures (a + b) + c == a + (b + c)
  {
  }

  lemma JoinOfHeaders(heads: seq<Option<seq<string>>>)
    requires AllHeaders(heads)
    ensures Join(Values(heads)) == [] <==> heads == []
  {
    if heads != [] {
      assert Values(heads)[|heads| - 1] == heads[|heads| - 1].value;
    }
  }

  lemma NextLines(qs: seq<seq<Row>>, widths: seq<nat>)
    ensures var t := Least(qs);
            if t.None? then Lines(Merge(qs), widths) == []
            else
              && Lines(Merge(qs), widths)
                 == [Cells(Merged(t.value, Parts(qs, t.value)), widths)] + Lines(Merge(Advanced(qs, t.value)), widths)
              && Total(Advanced(qs, t.value)) < Total(qs)
  {
    LeastIsLeast(qs);
    var t := Least(qs);
    if t.Some? {
      TotalLess(qs, t.value);
      assert Merge(qs)[1..] == Merge(Advanced(qs, t.value));
    }
  }
  // ---------------------------------------------------------------- from files to merged lines

  // A source as the options describe it, and the lines of its file.
  datatype Input = Input(codec: Codec, cfg: Config, file: seq<seq<string>>)

  // The program gets through the file, and shows no time as a missing signal.
  ghost predicate Mergeable(input: Input) {
    && (input.file != [] ==> Readable(input.cfg, input.file))
    && forall t :: input.codec.show(t) != NO_SIG
  }

  function LayoutOf(input: Input): (l: Layout)
    requires input.file != [] ==> Readable(input.cfg, input.file)
    ensures GoodLayout(l) || input.file == []
  {
    if input.file == [] then Layout([], 0, 0, 0) else MakeLayout(input.cfg, input.file[0]).value
  }

  function HeadOf(input: Input): Option<seq<string>>
    requires input.file != [] ==> Readable(input.cfg, input.file)
  {
    if input.file == [] then None else Some(Names(LayoutOf(input)))
  }

  // The rows the source accepts.
  function RowsOf(input: Input): seq<Row>
    requires input.file != [] ==> Readable(input.cfg, input.file)
  {
    if input.file == [] then [] else Accepted(input.codec, LayoutOf(input), input.file[1..])
  }

  ghost predicate AllMergeable(inputs: seq<Input>) {
    forall i :: 0 <= i < |inputs| ==> Mergeable(inputs[i])
  }

  ghost function Heads(inputs: seq<Input>): seq<Option<seq<string>>>
    requires AllMergeable(inputs)
  {
    seq(|inputs|, i requires 0 <= i < |inputs| => HeadOf(inputs[i]))
  }

  ghost function Queues(inputs: seq<Input>): seq<seq<Row>>
    requires AllMergeable(inputs)
  {
    seq(|inputs|, i requires 0 <= i < |inputs| => RowsOf(inputs[i]))
  }

  ghost function Widths(inputs: seq<Input>): seq<nat>
    requires AllMergeable(inputs)
  {
    seq(|inputs|, i requires 0 <= i < |inputs| => |LayoutOf(inputs[i]).columns|)
  }

  ghost function Clocks(inputs: seq<Input>): seq<nat>
    requires AllMergeable(inputs)
  {
    seq(|inputs|, i requires 0 <= i < |inputs| => LayoutOf(inputs[i]).clockDst)
  }

  // These are the rows of the file, in order, in the columns of the source.
  ghost predicate Gives(input: Input, cells: seq<seq<string>>)
    requires input.file != [] ==> Readable(input.cfg, input.file)
  {
    input.file != [] && ShowRows(input.codec, LayoutOf(input), input.file[1..], cells)
  }

  lemma InputGives(input: Input)
    requires input.file != [] && Readable(input.cfg, input.file)
    ensures Gives(input, CellsOf(RowsOf(input)))
  {
    var at := AcceptedShow(input.codec, LayoutOf(input), input.file[1..]);
  }

  // There is no header line, or it is empty.
  predicate NoHeader(input: Input)
    requires input.file != [] ==> Readable(input.cfg, input.file)
  {
    var columns := LayoutOf(input).columns;
    input.file == [] || columns == [] || (|columns| == 1 && columns[0].name == "")
  }

  lemma HeaderOrNot(input: Input)
    requires Mergeable(input)
    ensures NoHeader(input) <==> HeadOf(input).None? || HeadOf(input).value == [""] || HeadOf(input).value == []
  {
    if input.file != [] {
      var columns, names := LayoutOf(input).columns, Names(LayoutOf(input));
      assert |names| == |columns| && (columns != [] ==> names[0] == columns[0].name);
    }
  }

  lemma HeadersOrNot(inputs: seq<Input>)
    requires AllMergeable(inputs)
    ensures AllHeaders(Heads(inputs)) <==> forall i :: 0 <= i < |inputs| ==> !NoHeader(inputs[i])
  {
    forall i | 0 <= i < |inputs|
      ensures NoHeader(inputs[i])
         <==> Heads(inputs)[i].None? || Heads(inputs)[i].value == [""] || Heads(inputs)[i].value == []
    {
      assert Mergeable(inputs[i]);
      HeaderOrNot(inputs[i]);
    }
  }

  lemma QueuesAreGood(inputs: seq<Input>)
    requires AllMergeable(inputs) && AllHeaders(Heads(inputs))
    ensures GoodQueues(Queues(inputs), Widths(inputs), Clocks(inputs))
  {
    forall i | 0 <= i < |inputs|
      ensures Clocks(inputs)[i] < Widths(inputs)[i]
      ensures GoodQueue(Queues(inputs)[i], Widths(inputs)[i], Clocks(inputs)[i])
    {
      var input := inputs[i];
      assert Heads(inputs)[i] == HeadOf(input) && Mergeable(input);
      assert |Names(LayoutOf(input))| > 0;
      AcceptedIsGood(input.codec, LayoutOf(input), input.file[1..]);
    }
  }

  method OpenSource(input: Input) returns (source: Source)
    requires Mergeable(input)
    ensures fresh(source) && source.AtHeader(HeadOf(input), RowsOf(input), |LayoutOf(input).columns|)
  {
    source := new Source(input.codec, input.cfg, input.file);
  }

  // The sources of the first inputs are open.
  ghost predicate Opened(sources: seq<Source>, inputs: seq<Input>)
    requires AllMergeable(inputs)
    reads sources
  {
    && |sources| <= |inputs|
    && forall k {:trigger sources[k]} :: 0 <= k < |sources| ==>
         sources[k].AtHeader(HeadOf(inputs[k]), RowsOf(inputs[k]), |LayoutOf(inputs[k]).columns|)
  }

  lemma OpenedNext(sources: seq<Source>, inputs: seq<Input>, source: Source)
    requires AllMergeable(inputs) && Opened(sources, inputs) && |sources| < |inputs|
    requires var input := inputs[|sources|];
             source.AtHeader(HeadOf(input), RowsOf(input), |LayoutOf(input).columns|)
    ensures Opened(sources + [source], inputs)
  {
  }

  // No source has moved from its header.
  lemma OpenedIsTaken(sources: seq<Source>, inputs: seq<Input>)
    requires AllMergeable(inputs) && Opened(sources, inputs) && |sources| == |inputs|
    ensures HeadersTaken(sources, 0, Heads(inputs), Queues(inputs), Widths(inputs))
  {
  }

  method OpenSources(inputs: seq<Input>) returns (sources: seq<Source>)
    requires AllMergeable(inputs)
    ensures |sources| == |inputs| && Apart(sources) && forall k :: 0 <= k < |sources| ==> fresh(sources[k])
    ensures HeadersTaken(sources, 0, Heads(inputs), Queues(inputs), Widths(inputs))
  {
    sources := [];
    while |sources| < |inputs|
      invariant Opened(sources, inputs) && Apart(sources)
      invariant forall k :: 0 <= k < |sources| ==> fresh(sources[k])
    {
      var source := OpenSource(inputs[|sources|]);
      OpenedNext(sources, inputs, source);
      sources := sources + [source];
    }
    OpenedIsTaken(sources, inputs);
  }

  // Every source's accepted rows can be cut out of the merged lines again.
  method MergeFiles(inputs: seq<Input>) returns (lines: seq<seq<string>>)
    requires AllMergeable(inputs)
    ensures lines == if inputs != [] && AllHeaders(Heads(inputs))
                     then [Join(Values(Heads(inputs)))] + Lines(Merge(Queues(inputs)), Widths(inputs)) else []
    ensures lines == [] <==> inputs == [] || exists i :: 0 <= i < |inputs| && NoHeader(inputs[i])
    ensures lines != [] ==> forall i :: 0 <= i < |inputs| ==>
              && Project(lines[1..], Widths(inputs), Clocks(inputs), i) == CellsOf(RowsOf(inputs[i]))
              && Gives(inputs[i], Project(lines[1..], Widths(inputs), Clocks(inputs), i))
  {
    var sources := OpenSources(inputs);
    var merger := new Merger(sources);
    lines := merger.MergeAll(Heads(inputs), Queues(inputs), Widths(inputs));
    HeadersOrNot(inputs);
    if lines != [] {
      QueuesAreGood(inputs);
      assert lines[1..] == Lines(Merge(Queues(inputs)), Widths(inputs));
      forall i | 0 <= i < |inputs|
        ensures Project(lines[1..], Widths(inputs), Clocks(inputs), i) == CellsOf(RowsOf(inputs[i]))
        ensures Gives(inputs[i], CellsOf(RowsOf(inputs[i])))
      {
        ProjectionUndoesMerge(Queues(inputs), Widths(inputs), Clocks(inputs), i);
        assert Heads(inputs)[i] == HeadOf(inputs[i]);
        InputGives(inputs[i]);
      }
    }
  }
}
