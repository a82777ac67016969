// The line printed for a sample and the legend line printed before all
// samples, in the mode where all signals are on one line separated by ';'.
module SampleLine {
  import opened Decimal
  import opened SampleText
  import SubIndex

  datatype Option<T> = None | Some(value: T)

  // What is printed for a signal that has not been updated.
  datatype Nuce = LastVal | PresetSig | PresetSample | Nothing

  datatype Sub = Sub(
    isStr: bool, nuce: Nuce, presetVal: string, notified: bool,
    val: string, valS: string, isUpdated: bool)

  datatype Sig = Sig(name: string, fname: string, subs: seq<Sub>)

  datatype Column = ExecTime | PeriodBegin | PeriodHarvested | SampleId | TriggerId | Unknown

  datatype Diag = Diag(exec: int, begin: int, harvested: int, sampleId: nat, triggerId: nat)

  // A time in microseconds, in seconds with six decimals.
  function Seconds(t: int): string {
    var us := if t < 0 then -t else t;
    (if t < 0 then "-" else "") + Dec(us / 1000000) + "." + Pad(Dec(us % 1000000), 6)
  }

  // The text of a time: a sign, the seconds without zeros in front, a point and
  // six digits, both read as the number they stand for.
  lemma SecondsRead(t: int) returns (whole: string, micros: string)
    ensures Seconds(t) == (if t < 0 then "-" else "") + whole + "." + micros
    ensures whole != "" && Digits(whole) && (whole == "0" || whole[0] != '0')
    ensures |micros| == 6 && Digits(micros)
    ensures var us := if t < 0 then -t else t;
            Atoi(whole, 0, 0) == us / 1000000 && Atoi(micros, 0, 0) == us % 1000000
  {
    var us := if t < 0 then -t else t;
    whole, micros := Dec(us / 1000000), Pad(Dec(us % 1000000), 6);
    DecReads(us / 1000000);
    DecStart(us / 1000000);
    DecReads(us % 1000000);
    MicrosAreShort(us % 1000000);
    PadReads(Dec(us % 1000000), 6);
  }

  lemma MicrosAreShort(n: nat)
    requires n < 1000000
    ensures |Dec(n)| <= 6
  {
    assert PowerOfTen(3) == 1000;
    assert PowerOfTen(6) == 1000000;
    DecIsShort(n, 6);
  }

  // ---------------------------------------------------------------- a sample

  function DiagText(d: Diag, c: Column): string {
    match c
    case ExecTime => Seconds(d.exec)
    case PeriodBegin => Seconds(d.begin)
    case PeriodHarvested => Seconds(d.harvested)
    case SampleId => Dec(d.sampleId)
    case TriggerId => Dec(d.triggerId)
    case Unknown => "FORMAT-ERROR"
  }

  // The text of a sub-signal; repeating the last value of a string aborts.
  function Cell(s: Sub, preset: string): Option<string> {
    if s.isUpdated then Some(if s.isStr then s.valS else s.val)
    else match s.nuce
      case LastVal => if s.isStr then None else Some(s.val)
      case PresetSig => Some(s.presetVal)
      case PresetSample => Some(preset)
      case Nothing => Some("")
  }

  predicate Aborts(s: Sub) {
    !s.isUpdated && s.nuce.LastVal? && s.isStr
  }

  function CellText(s: Sub, preset: string): string {
    if Aborts(s) then "" else Cell(s, preset).value
  }

  function Fields(texts: seq<string>): string {
    if texts == [] then "" else ";" + texts[0] + Fields(texts[1..])
  }

  function SubCells(subs: seq<Sub>, preset: string): seq<string> {
    seq(|subs|, j requires 0 <= j < |subs| => CellText(subs[j], preset))
  }

  function AllCells(sigs: seq<Sig>, preset: string): seq<string> {
    if sigs == [] then [] else SubCells(sigs[0].subs, preset) + AllCells(sigs[1..], preset)
  }

  function DiagTexts(d: Diag, format: seq<Column>): seq<string> {
    seq(|format|, k requires 0 <= k < |format| => DiagText(d, format[k]))
  }

  // Every diagnostics column shows its own quantity.
  lemma DiagColumns(d: Diag)
    ensures DiagTexts(d, [ExecTime, PeriodBegin, PeriodHarvested, SampleId, TriggerId])
         == [Seconds(d.exec), Seconds(d.begin), Seconds(d.harvested), Dec(d.sampleId), Dec(d.triggerId)]
  {
  }

  function GroupText(d: Diag, format: seq<Column>): string {
    "{" + ("#0" + Fields(DiagTexts(d, format))) + "}"
  }

  function Line(start: nat, d: Diag, format: seq<Column>, cells: seq<string>): string {
    Seconds(start) + ";" + (GroupText(d, format) + Fields(cells))
  }

  // ---------------------------------------------------------------- the legend

  const TIME := "Time-now"
  const SINCE := "TSince-last"

  function SubName(sig: Sig, j: nat): string {
    if |sig.subs| > 1 then
      if sig.fname != "" then sig.name + "_" + Dec(j) + "=" + sig.fname + "_" + Dec(j)
      else sig.name + "_" + Dec(j)
    else if sig.fname != "" then sig.name + "=" + sig.fname else sig.name
  }

  // A signal without sub-signals still gets a column.
  function Names(sig: Sig): seq<string> {
    seq(if |sig.subs| > 1 then |sig.subs| else 1, j requires 0 <= j => SubName(sig, j))
  }

  function AllNames(sigs: seq<Sig>): seq<string> {
    if sigs == [] then [] else Names(sigs[0]) + AllNames(sigs[1..])
  }

  // A signal's own name, then the name in its file if it has one, both numbered
  // if there are several sub-signals.
  lemma SubNameIs(sig: Sig, j: nat)
    ensures var number := if |sig.subs| > 1 then "_" + Dec(j) else "";
            SubName(sig, j) == (sig.name + number) + (if sig.fname == "" then "" else "=" + (sig.fname + number))
  {
  }

  predicate Named(sigs: seq<Sig>) {
    forall i :: 0 <= i < |sigs| ==> Clean(sigs[i].name) && Clean(sigs[i].fname)
  }

  function Legend(sigs: seq<Sig>): string {
    TIME + (";" + SINCE + Fields(AllNames(sigs)))
  }

  // ---------------------------------------------------------------- reading back

  function Atoms(texts: seq<string>): seq<Item> {
    seq(|texts|, k requires 0 <= k < |texts| => Atom(texts[k]))
  }

  predicate AllClean(texts: seq<string>) {
    forall k :: 0 <= k < |texts| ==> Clean(texts[k])
  }

  // Printing with a leading item is printing the item, then the fields.
  lemma {:induction false} PrintFields(x: Item, texts: seq<string>)
    ensures Print([x] + Atoms(texts)) == Show(x) + Fields(texts)
    decreases |texts|
  {
    var l := [x] + Atoms(texts);
    if texts == [] {
      assert l == [x];
    } else {
      assert l[1..] == [Atom(texts[0])] + Atoms(texts[1..]);
      PrintFields(Atom(texts[0]), texts[1..]);
      assert Show(x) + ";" + (texts[0] + Fields(texts[1..])) == Show(x) + (";" + texts[0] + Fields(texts[1..]));
    }
  }

  lemma {:induction false} AtomsClean(texts: seq<string>)
    requires AllClean(texts)
    ensures CleanItems(Atoms(texts))
  {
    if texts != [] {
      AtomsClean(texts[1..]);
      assert Atoms(texts)[1..] == Atoms(texts[1..]);
    }
  }

  function Strips(texts: seq<string>): seq<string> {
    seq(|texts|, k requires 0 <= k < |texts| => Strip(texts[k]))
  }

  lemma {:induction false} NormsAtoms(texts: seq<string>)
    ensures Norms(Atoms(texts)) == Atoms(Strips(texts))
  {
    if texts != [] {
      NormsAtoms(texts[1..]);
      assert Atoms(texts)[1..] == Atoms(texts[1..]);
      assert Strips(texts)[1..] == Strips(texts[1..]);
    }
  }

  lemma SecondsPlain(t: int)
    ensures Clean(Seconds(t)) && Strip(Seconds(t)) == Seconds(t) && Seconds(t) != ""
  {
  }

  lemma DiagPlain(d: Diag, c: Column)
    ensures Clean(DiagText(d, c)) && Strip(DiagText(d, c)) == DiagText(d, c)
  {
    match c
    case ExecTime => SecondsPlain(d.exec);
    case PeriodBegin => SecondsPlain(d.begin);
    case PeriodHarvested => SecondsPlain(d.harvested);
    case SampleId => assert Digits(DiagText(d, c));
    case TriggerId => assert Digits(DiagText(d, c));
    case Unknown =>
  }

  // The diagnostics are one group, marked "#0".
  function Group(d: Diag, format: seq<Column>): Item {
    List([Atom("#0")] + Atoms(DiagTexts(d, format)))
  }

  function LineItems(start: nat, d: Diag, format: seq<Column>, cells: seq<string>): seq<Item> {
    [Atom(Seconds(start)), Group(d, format)] + Atoms(cells)
  }

  lemma GroupIsPrinted(d: Diag, format: seq<Column>)
    ensures Show(Group(d, format)) == GroupText(d, format)
  {
    PrintFields(Atom("#0"), DiagTexts(d, format));
  }

  lemma LineIsPrinted(start: nat, d: Diag, format: seq<Column>, cells: seq<string>)
    ensures Line(start, d, format, cells) == Print(LineItems(start, d, format, cells))
  {
    var items, rest := LineItems(start, d, format, cells), [Group(d, format)] + Atoms(cells);
    GroupIsPrinted(d, format);
    PrintFields(Group(d, format), cells);
    assert items[1..] == rest && |items| > 1;
    assert Print(items) == Show(items[0]) + ";" + Print(rest);
  }

  lemma GroupIsPlain(d: Diag, format: seq<Column>)
    ensures CleanItem(Group(d, format)) && NormItem(Group(d, format)) == Group(d, format)
  {
    var texts := DiagTexts(d, format);
    forall k | 0 <= k < |texts|
      ensures Clean(texts[k]) && Strip(texts[k]) == texts[k]
    {
      DiagPlain(d, format[k]);
    }
    AtomsClean(texts);
    NormsAtoms(texts);
    assert Strips(texts) == texts;
    var items := [Atom("#0")] + Atoms(texts);
    assert items[1..] == Atoms(texts);
    assert Strip("#0") == "#0";
    assert Norms(items) == items;
    assert items != [Atom("")];
  }

  // A sample line reads back as the time, one diagnostics group and one atom
  // for every sub-signal.
  lemma LineReadsBack(start: nat, d: Diag, format: seq<Column>, cells: seq<string>)
    requires AllClean(cells)
    ensures Parsed(Line(start, d, format, cells))
         == Ok([Atom(Seconds(start)), List([Atom("#0")] + Atoms(DiagTexts(d, format)))] + Atoms(Strips(cells)))
  {
    var items := LineItems(start, d, format, cells);
    var time := Atom(Seconds(start));
    LineIsPrinted(start, d, format, cells);
    SecondsPlain(start);
    GroupIsPlain(d, format);
    AtomsClean(cells);
    NormsAtoms(cells);
    assert items[1..] == [Group(d, format)] + Atoms(cells);
    assert items[1..][1..] == Atoms(cells);
    assert CleanItem(time) && CleanItems(items[1..]);
    ParsePrinted(items);
    assert Norms(items) == [time] + ([Group(d, format)] + Atoms(Strips(cells)));
  }

  // A line of atoms that does not start with an empty one.
  lemma AtomsReadBack(first: string, texts: seq<string>)
    requires first != "" && Clean(first) && AllClean(texts)
    ensures Parsed(first + Fields(texts)) == Ok([Atom(Strip(first))] + Atoms(Strips(texts)))
  {
    var items := [Atom(first)] + Atoms(texts);
    PrintFields(Atom(first), texts);
    AtomsClean(texts);
    NormsAtoms(texts);
    assert items[1..] == Atoms(texts) && items[0] == Atom(first);
    ParsePrinted(items);
    assert Norms(items) == [Atom(Strip(first))] + Atoms(Strips(texts));
  }

  // Blanks around an item are dropped.
  lemma BlanksDropped()
    ensures Parsed("1.5 " + (";" + "\t2.5\r")) == Ok([Atom("1.5"), Atom("2.5")])
  {
    var texts := ["\t2.5\r"];
    BlankExamples();
    AtomsReadBack("1.5 ", texts);
    assert texts[1..] == [] && Fields(texts) == ";" + texts[0] + "";
    assert Fields(texts) == ";" + texts[0];
    assert Atoms(Strips(texts)) == [Atom("2.5")];
    assert [Atom("1.5")] + [Atom("2.5")] == [Atom("1.5"), Atom("2.5")];
  }

  lemma BlankExamples()
    ensures Strip("1.5 ") == "1.5" && Strip("\t2.5\r") == "2.5"
  {
    assert "1.5 "[..3] == "1.5" && "\t2.5\r"[1..] == "2.5\r" && "2.5\r"[..3] == "2.5";
    StripIfTrimmed("1.5");
    StripIfTrimmed("2.5");
  }

  lemma LegendIsFields(names: seq<string>)
    ensures Fields([SINCE] + names) == ";" + SINCE + Fields(names)
  {
  }

  lemma LegendReadsBack(sigs: seq<Sig>)
    requires AllClean(AllNames(sigs))
    ensures Parsed(Legend(sigs)) == Ok([Atom(Strip(TIME))] + Atoms(Strips([SINCE] + AllNames(sigs))))
  {
    LegendIsFields(AllNames(sigs));
    AtomsReadBack(TIME, [SINCE] + AllNames(sigs));
  }

  // ---------------------------------------------------------------- columns

  // The number of sub-signals of the first i signals.
  function Offset(sigs: seq<Sig>, i: nat): nat
    requires i <= |sigs|
  {
    if i == 0 then 0 else |sigs[0].subs| + Offset(sigs[1..], i - 1)
  }

  predicate Peopled(sigs: seq<Sig>) {
    forall i :: 0 <= i < |sigs| ==> sigs[i].subs != []
  }

  lemma {:induction false} CellAt(sigs: seq<Sig>, preset: string, i: nat, j: nat)
    requires i < |sigs| && j < |sigs[i].subs|
    ensures Offset(sigs, i) + j < |AllCells(sigs, preset)|
    ensures AllCells(sigs, preset)[Offset(sigs, i) + j] == CellText(sigs[i].subs[j], preset)
  {
    if i > 0 {
      CellAt(sigs[1..], preset, i - 1, j);
    }
  }

  lemma {:induction false} NameAt(sigs: seq<Sig>, i: nat, j: nat)
    requires Peopled(sigs) && i < |sigs| && j < |sigs[i].subs|
    ensures Offset(sigs, i) + j < |AllNames(sigs)|
    ensures AllNames(sigs)[Offset(sigs, i) + j] == SubName(sigs[i], j)
  {
    if i > 0 {
      NameAt(sigs[1..], i - 1, j);
    }
  }

  lemma PeopledHead(sigs: seq<Sig>)
    requires sigs != []
    ensures Peopled(sigs) <==> sigs[0].subs != [] && Peopled(sigs[1..])
  {
  }

  lemma {:induction false} CellsWidth(sigs: seq<Sig>, preset: string)
    ensures |AllCells(sigs, preset)| == Offset(sigs, |sigs|)
  {
    if sigs != [] {
      CellsWidth(sigs[1..], preset);
    }
  }

  lemma {:induction false} NamesWidth(sigs: seq<Sig>)
    ensures |AllNames(sigs)| >= Offset(sigs, |sigs|)
    ensures |AllNames(sigs)| == Offset(sigs, |sigs|) <==> Peopled(sigs)
  {
    if sigs != [] {
      var rest := sigs[1..];
      NamesWidth(rest);
      PeopledHead(sigs);
      assert |AllNames(sigs)| == |Names(sigs[0])| + |AllNames(rest)|;
      assert Offset(sigs, |sigs|) == |sigs[0].subs| + Offset(rest, |rest|);
    }
  }

  lemma SubNameClean(sig: Sig, j: nat)
    requires Clean(sig.name) && Clean(sig.fname)
    ensures Clean(SubName(sig, j))
  {
  }

  lemma {:induction false} NamesClean(sigs: seq<Sig>)
    requires Named(sigs)
    ensures AllClean(AllNames(sigs))
  {
    if sigs != [] {
      NamesClean(sigs[1..]);
      forall j | 0 <= j < |Names(sigs[0])|
        ensures Clean(Names(sigs[0])[j])
      {
        SubNameClean(sigs[0], j);
      }
    }
  }

  predicate Printable(sigs: seq<Sig>, preset: string) {
    forall i, j :: 0 <= i < |sigs| && 0 <= j < |sigs[i].subs| ==> Clean(CellText(sigs[i].subs[j], preset))
  }

  lemma {:induction false} CellsClean(sigs: seq<Sig>, preset: string)
    requires Printable(sigs, preset)
    ensures AllClean(AllCells(sigs, preset))
  {
    if sigs != [] {
      CellsClean(sigs[1..], preset);
    }
  }

  lemma ItemAt(before: seq<Item>, texts: seq<string>, k: nat, text: string)
    requires k < |texts| && texts[k] == text
    ensures |before + Atoms(Strips(texts))| == |before| + |texts|
    ensures (before + Atoms(Strips(texts)))[|before| + k] == Atom(Strip(text))
  {
  }

  lemma CellColumn(time: Item, group: Item, sigs: seq<Sig>, preset: string, i: nat, j: nat)
    requires i < |sigs| && j < |sigs[i].subs|
    ensures var line, k := [time, group] + Atoms(Strips(AllCells(sigs, preset))), 2 + Offset(sigs, i) + j;
            k < |line| && line[k] == Atom(Strip(CellText(sigs[i].subs[j], preset)))
  {
    var cells, k := AllCells(sigs, preset), Offset(sigs, i) + j;
    CellAt(sigs, preset, i, j);
    ItemAt([time, group], cells, k, CellText(sigs[i].subs[j], preset));
  }

  lemma NameColumn(head: Item, sigs: seq<Sig>, i: nat, j: nat)
    requires Peopled(sigs) && i < |sigs| && j < |sigs[i].subs|
    ensures var legend, k := [head] + Atoms(Strips([SINCE] + AllNames(sigs))), 2 + Offset(sigs, i) + j;
            k < |legend| && legend[k] == Atom(Strip(SubName(sigs[i], j)))
  {
    var names, k := [SINCE] + AllNames(sigs), 1 + Offset(sigs, i) + j;
    NameAt(sigs, i, j);
    ItemAt([head], names, k, SubName(sigs[i], j));
  }

  lemma ColumnIs(time: Item, group: Item, head: Item, sigs: seq<Sig>, preset: string, i: nat, j: nat)
    requires Peopled(sigs) && i < |sigs| && j < |sigs[i].subs|
    ensures ColumnAgrees([time, group] + Atoms(Strips(AllCells(sigs, preset))),
                         [head] + Atoms(Strips([SINCE] + AllNames(sigs))), sigs, preset, i, j)
  {
    CellColumn(time, group, sigs, preset, i, j);
    NameColumn(head, sigs, i, j);
  }

  // The sample line has as many items as the legend line exactly when every
  // signal has a sub-signal; then every cell is under its own name.
  lemma ColumnsAgree(start: nat, d: Diag, format: seq<Column>, sigs: seq<Sig>, preset: string)
    requires Printable(sigs, preset) && Named(sigs)
    ensures var line, legend := Parsed(Line(start, d, format, AllCells(sigs, preset))), Parsed(Legend(sigs));
            && line.Ok? && legend.Ok?
            && |line.items| == 2 + Offset(sigs, |sigs|)
            && (|line.items| == |legend.items| <==> Peopled(sigs))
            && (Peopled(sigs) ==>
                  forall i, j :: 0 <= i < |sigs| && 0 <= j < |sigs[i].subs| ==>
                    ColumnAgrees(line.items, legend.items, sigs, preset, i, j))
  {
    var cells, names := AllCells(sigs, preset), AllNames(sigs);
    CellsClean(sigs, preset);
    NamesClean(sigs);
    LineReadsBack(start, d, format, cells);
    LegendReadsBack(sigs);
    CellsWidth(sigs, preset);
    NamesWidth(sigs);
    var line, legend := Parsed(Line(start, d, format, cells)).items, Parsed(Legend(sigs)).items;
    if Peopled(sigs) {
      forall i, j | 0 <= i < |sigs| && 0 <= j < |sigs[i].subs|
        ensures ColumnAgrees(line, legend, sigs, preset, i, j)
      {
        ColumnIs(Atom(Seconds(start)), Group(d, format), Atom(Strip(TIME)), sigs, preset, i, j);
      }
    }
  }

  const WITHOUT := Sig("a", "", [])
  const WITH := Sig("b", "", [Sub(false, LastVal, "", false, "5", "", true)])

  lemma ShiftedTexts(preset: string)
    ensures AllCells([WITHOUT, WITH], preset) == ["5"] && AllNames([WITHOUT, WITH]) == ["a", "b"]
  {
    assert [WITHOUT, WITH][1..] == [WITH] && [WITH][1..] == [];
    assert AllCells([WITH], preset) == ["5"] && AllNames([WITH]) == ["b"];
  }

  // For example a signal whose sub-index field is ",": it has no sub-signal,
  // and the cell of the signal after it stands under its name.
  lemma ColumnsShift(start: nat, d: Diag, format: seq<Column>, preset: string)
    ensures |SubIndex.ParseField(",")| == |WITHOUT.subs| == 0 && |SubIndex.ParseField("")| == |WITH.subs| == 1
    ensures Parsed(Line(start, d, format, AllCells([WITHOUT, WITH], preset)))
         == Ok([Atom(Seconds(start)), List([Atom("#0")] + Atoms(DiagTexts(d, format))), Atom("5")])
    ensures Parsed(Legend([WITHOUT, WITH])) == Ok([Atom("Time-now"), Atom("TSince-last"), Atom("a"), Atom("b")])
  {
    SubIndex.NoSubSignals(",");
    ShiftedTexts(preset);
    ShiftedLine(start, d, format);
    ShiftedLegend();
  }

  lemma ShiftedLine(start: nat, d: Diag, format: seq<Column>)
    ensures Parsed(Line(start, d, format, ["5"])) == Ok([Atom(Seconds(start)), Group(d, format), Atom("5")])
  {
    LineReadsBack(start, d, format, ["5"]);
    assert Strip("5") == "5";
    assert Atoms(Strips(["5"])) == [Atom("5")];
  }

  lemma ShiftedLegend()
    ensures Parsed(Legend([WITHOUT, WITH])) == Ok([Atom(TIME), Atom(SINCE), Atom("a"), Atom("b")])
  {
    ShiftedTexts("");
    LegendReadsBack([WITHOUT, WITH]);
    assert Strip(TIME) == TIME && Strip(SINCE) == SINCE && Strip("a") == "a" && Strip("b") == "b";
    assert Atoms(Strips([SINCE, "a", "b"])) == [Atom(SINCE), Atom("a"), Atom("b")];
  }

  predicate ColumnAgrees(line: seq<Item>, legend: seq<Item>, sigs: seq<Sig>, preset: string, i: nat, j: nat)
    requires i < |sigs| && j < |sigs[i].subs|
  {
    var column := 2 + Offset(sigs, i) + j;
    && column < |line| && column < |legend|
    && line[column] == Atom(Strip(CellText(sigs[i].subs[j], preset)))
    && legend[column] == Atom(Strip(SubName(sigs[i], j)))
  }

  // ---------------------------------------------------------------- the program

  lemma {:induction false} FieldsJoin(a: seq<string>, b: seq<string>)
    ensures Fields(a + b) == Fields(a) + Fields(b)
  {
    if a == [] {
      assert a + b == b;
    } else {
      assert (a + b)[1..] == a[1..] + b;
      FieldsJoin(a[1..], b);
    }
  }

  lemma {:induction false} CellsJoin(a: seq<Sig>, b: seq<Sig>, preset: string)
    ensures AllCells(a + b, preset) == AllCells(a, preset) + AllCells(b, preset)
  {
    if a == [] {
      assert a + b == b;
    } else {
      assert (a + b)[1..] == a[1..] + b;
      CellsJoin(a[1..], b, preset);
    }
  }

  // What one more cell and one more signal add to the line.
  lemma SubCellsNext(states: seq<Sub>, preset: string, j: nat)
    requires j < |states|
    ensures Fields(SubCells(states[..j + 1], preset))
         == Fields(SubCells(states[..j], preset)) + (";" + CellText(states[j], preset))
  {
    var text := CellText(states[j], preset);
    assert SubCells(states[..j + 1], preset) == SubCells(states[..j], preset) + [text];
    FieldsJoin(SubCells(states[..j], preset), [text]);
    assert Fields([text]) == ";" + text;
  }

  function LineUpTo(sigs: seq<Sig>, preset: string, i: nat): string
    requires i <= |sigs|
  {
    if i == 0 then "" else LineUpTo(sigs, preset, i - 1) + Fields(SubCells(sigs[i - 1].subs, preset))
  }

  lemma CellsNext(sigs: seq<Sig>, preset: string, i: nat)
    requires 0 < i <= |sigs|
    ensures AllCells(sigs[..i], preset) == AllCells(sigs[..i - 1], preset) + SubCells(sigs[i - 1].subs, preset)
  {
    var sig := sigs[i - 1];
    assert sigs[..i] == sigs[..i - 1] + [sig];
    CellsJoin(sigs[..i - 1], [sig], preset);
    assert [sig][1..] == [] && AllCells([sig], preset) == SubCells(sig.subs, preset);
  }

  lemma {:induction false} LineUpToCells(sigs: seq<Sig>, preset: string, i: nat)
    requires i <= |sigs|
    ensures LineUpTo(sigs, preset, i) == Fields(AllCells(sigs[..i], preset))
  {
    if i > 0 {
      LineUpToCells(sigs, preset, i - 1);
      CellsNext(sigs, preset, i);
      FieldsJoin(AllCells(sigs[..i - 1], preset), SubCells(sigs[i - 1].subs, preset));
    }
  }

  predicate NoneAborts(subs: seq<Sub>) {
    forall j :: 0 <= j < |subs| ==> !Aborts(subs[j])
  }

  predicate Abort(sigs: seq<Sig>) {
    exists i :: 0 <= i < |sigs| && !NoneAborts(sigs[i].subs)
  }

  function Clear(subs: seq<Sub>): seq<Sub> {
    seq(|subs|, j requires 0 <= j < |subs| => subs[j].(isUpdated := false))
  }

  // No sub-signal is updated any more.
  function ClearAll(sigs: seq<Sig>): seq<Sig> {
    seq(|sigs|, i requires 0 <= i < |sigs| => sigs[i].(subs := Clear(sigs[i].subs)))
  }

  // A notified sub-signal has new data.
  predicate News(subs: seq<Sub>) {
    exists j :: 0 <= j < |subs| && subs[j].isUpdated && subs[j].notified
  }

  // Runs in which no monitored file had anything to tell are not printed.
  predicate Certified(filesMonitored: nat, sigs: seq<Sig>) {
    filesMonitored == 0 || exists i :: 0 <= i < |sigs| && News(sigs[i].subs)
  }

  class Sampler {
    const preset: string
    const format: seq<Column>
    const filesMonitored: nat
    var sigs: seq<Sig>
    var diag: Diag
    var first: bool
    var t1last: int
    var t2last: int

    constructor (sigs: seq<Sig>, preset: string, format: seq<Column>, filesMonitored: nat)
      ensures this.sigs == sigs && this.preset == preset && this.format == format
      ensures this.filesMonitored == filesMonitored && first && diag == Diag(0, 0, 0, 0, 0)
    {
      this.sigs, this.preset, this.format, this.filesMonitored := sigs, preset, format, filesMonitored;
      diag, first, t1last, t2last := Diag(0, 0, 0, 0, 0), true, 0, 0;
    }

    // The text of one sub-signal, or ok == false where the program aborts.
    method Take(s: Sub) returns (text: string, ok: bool)
      ensures ok <==> !Aborts(s)
      ensures !ok <==> !s.isUpdated && s.nuce.LastVal? && s.isStr
      ensures ok ==> text == CellText(s, preset)
      ensures ok && s.isUpdated ==> text == if s.isStr then s.valS else s.val
      ensures ok && !s.isUpdated && s.nuce.LastVal? ==> text == s.val
      ensures ok && !s.isUpdated && s.nuce.PresetSig? ==> text == s.presetVal
      ensures ok && !s.isUpdated && s.nuce.PresetSample? ==> text == preset
      ensures ok && !s.isUpdated && s.nuce.Nothing? ==> text == ""
    {
      text, ok := "", true;
      if s.isUpdated {
        text := if s.isStr then s.valS else s.val;
      } else {
        match s.nuce
        case LastVal =>
          if s.isStr {
            return "", false;
          }
          text := s.val;
        case PresetSig => text := s.presetVal;
        case PresetSample => text := preset;
        case Nothing => text := "";
      }
    }

    // Prints the sub-signals of one signal and marks them as not updated.
    method PrintSubs(i: nat) returns (out: string, ok: bool)
      requires i < |sigs|
      modifies `sigs
      ensures ok <==> NoneAborts(old(sigs[i].subs))
      ensures ok ==> out == Fields(SubCells(old(sigs[i].subs), preset))
      ensures ok ==> sigs == old(sigs)[i := old(sigs[i]).(subs := Clear(old(sigs[i].subs)))]
    {
      var subs := sigs[i].subs;
      out, ok := "", true;
      assert subs[..0] == [];
      var left := subs;
      for j := 0 to |subs|
        invariant ok && out == Fields(SubCells(subs[..j], preset))
        invariant sigs == old(sigs)
        invariant forall k :: 0 <= k < j ==> !Aborts(subs[k])
        invariant |left| == |subs|
        invariant forall k :: 0 <= k < j ==> left[k] == subs[k].(isUpdated := false)
        invariant forall k :: j <= k < |left| ==> left[k] == subs[k]
      {
        SubCellsNext(subs, preset, j);
        var cell;
        cell, ok := Take(subs[j]);
        if !ok {
          return;
        }
        out := out + (";" + cell);
        left := left[j := left[j].(isUpdated := false)];
      }
      assert subs[..|subs|] == subs;
      assert left == Clear(subs);
      sigs := sigs[i := sigs[i].(subs := left)];
    }

    // Prints all sub-signals of all signals.
    method CollectAndPrint() returns (out: string, ok: bool)
      modifies `sigs
      ensures ok <==> !Abort(old(sigs))
      ensures ok ==> out == Fields(AllCells(old(sigs), preset)) && sigs == ClearAll(old(sigs))
      ensures ok <==> forall i, j :: 0 <= i < |old(sigs)| && 0 <= j < |old(sigs)[i].subs| ==> !Aborts(old(sigs)[i].subs[j])
      ensures ok ==> forall i, j :: 0 <= i < |sigs| && 0 <= j < |sigs[i].subs| ==> !sigs[i].subs[j].isUpdated
    {
      ghost var before := sigs;
      out, ok := "", true;
      for i := 0 to |sigs|
        invariant |sigs| == |before|
        invariant ok && out == LineUpTo(before, preset, i)
        invariant forall k :: 0 <= k < i ==> NoneAborts(before[k].subs)
        invariant forall k :: 0 <= k < i ==> sigs[k] == before[k].(subs := Clear(before[k].subs))
        invariant forall k :: i <= k < |sigs| ==> sigs[k] == before[k]
      {
        var cells;
        cells, ok := PrintSubs(i);
        if !ok {
          return;
        }
        out := out + cells;
      }
      LineUpToCells(before, preset, |before|);
      assert before[..|before|] == before;
    }

    method CertifiedRun() returns (certified: bool)
      ensures certified == Certified(filesMonitored, sigs)
      ensures certified <==>
                || filesMonitored == 0
                || exists i, j :: 0 <= i < |sigs| && 0 <= j < |sigs[i].subs|
                     && sigs[i].subs[j].isUpdated && sigs[i].subs[j].notified
    {
      if filesMonitored == 0 {
        return true;
      }
      var updated := 0;
      for i := 0 to |sigs|
        invariant updated > 0 <==> exists k :: 0 <= k < i && News(sigs[k].subs)
      {
        ghost var before := updated;
        for j := 0 to |sigs[i].subs|
          invariant updated >= before
          invariant updated > before <==> exists k :: 0 <= k < j && sigs[i].subs[k].isUpdated && sigs[i].subs[k].notified
        {
          if sigs[i].subs[j].isUpdated && sigs[i].subs[j].notified {
            updated := updated + 1;
          }
        }
      }
      certified := updated > 0;
    }

    method PrintDiag() returns (text: string)
      ensures text == Fields(DiagTexts(diag, format))
    {
      text := "";
      assert DiagTexts(diag, []) == [];
      for c := 0 to |format|
        invariant text == Fields(DiagTexts(diag, format[..c]))
      {
        var column := DiagText(diag, format[c]);
        assert DiagTexts(diag, format[..c + 1]) == DiagTexts(diag, format[..c]) + [column];
        FieldsJoin(DiagTexts(diag, format[..c]), [column]);
        text := text + (";" + column);
      }
      assert format[..|format|] == format;
    }

    // The master's harvest of a round begun at `start`; nothing is printed or
    // changed for a run that is not certified.
    method HarvestSample(start: nat, time: nat) returns (out: string, ok: bool)
      modifies this
      ensures !Certified(filesMonitored, old(sigs)) ==>
                ok && out == "" && sigs == old(sigs) && diag == old(diag) && first == old(first)
      ensures Certified(filesMonitored, old(sigs)) ==> (ok <==> !Abort(old(sigs)))
      ensures Certified(filesMonitored, old(sigs)) && ok ==>
                && out == Line(start, diag.(sampleId := old(diag.sampleId)), format, AllCells(old(sigs), preset)) + "\n"
                && sigs == ClearAll(old(sigs)) && !first && t1last == start && t2last == time
                && diag == Diag(time - start,
                                if old(first) then old(diag.begin) else start - old(t1last),
                                if old(first) then old(diag.harvested) else time - old(t2last),
                                old(diag.sampleId) + 1, old(diag.triggerId))
    {
      var certified := CertifiedRun();
      if !certified {
        return "", true;
      }
      diag := diag.(exec := time - start);
      if first {
        first := false;
      } else {
        diag := diag.(harvested := time - t2last, begin := start - t1last);
      }
      t2last := time;
      t1last := start;
      var text := PrintDiag();
      out := Seconds(start) + ";";
      var group := "{" + ("#0" + text) + "}";
      var cells;
      cells, ok := CollectAndPrint();
      out := out + (group + cells) + "\n";
      diag := diag.(sampleId := diag.sampleId + 1);
    }
  }
}
