// The text of a sample: items joined by ';', nested lists in braces.  Reading
// it back takes two steps, a tokenizer that looks one character ahead and a
// parser with a stack of unfinished lists.
module SampleText {

  datatype Item = Atom(text: string) | List(items: seq<Item>)

  datatype Token = Open | Close | Text(text: string)

  datatype Error = IndexOutOfRange | MismatchedParenthesis

  datatype Result = Ok(items: seq<Item>) | Err(error: Error)

  // ---------------------------------------------------------------- printing

  function Show(x: Item): string {
    match x
    case Atom(t) => t
    case List(m) => "{" + Print(m) + "}"
  }

  function Print(l: seq<Item>): string {
    if l == [] then "" else if |l| == 1 then Show(l[0]) else Show(l[0]) + ";" + Print(l[1..])
  }

  predicate Special(c: char) {
    c in {';', '{', '}'}
  }

  predicate Clean(t: string) {
    forall k :: 0 <= k < |t| ==> !Special(t[k])
  }

  predicate CleanItem(x: Item) {
    match x
    case Atom(t) => Clean(t)
    case List(m) => CleanItems(m)
  }

  predicate CleanItems(l: seq<Item>) {
    l == [] || (CleanItem(l[0]) && CleanItems(l[1..]))
  }

  predicate Blank(c: char) {
    c in {' ', '\t', '\n', '\r', 11 as char, 12 as char}
  }

  // Python's str.strip().
  function Strip(t: string): string {
    if t != "" && Blank(t[0]) then Strip(t[1..])
    else if t != "" && Blank(t[|t| - 1]) then Strip(t[..|t| - 1])
    else t
  }

  predicate AllBlank(t: string) {
    forall k :: 0 <= k < |t| ==> Blank(t[k])
  }

  // Neither the first nor the last character is a blank.
  predicate Trimmed(t: string) {
    t == "" || (!Blank(t[0]) && !Blank(t[|t| - 1]))
  }

  // Stripping takes away the outer blanks and nothing else.
  lemma {:induction false} StripTrims(t: string) returns (a: string, b: string)
    ensures t == a + Strip(t) + b && AllBlank(a) && AllBlank(b) && Trimmed(Strip(t))
    decreases |t|
  {
    a, b := "", "";
    if t != "" && Blank(t[0]) {
      a, b := StripTrims(t[1..]);
      a := [t[0]] + a;
    } else if t != "" && Blank(t[|t| - 1]) {
      a, b := StripTrims(t[..|t| - 1]);
      b := b + [t[|t| - 1]];
    }
  }

  lemma StripIfTrimmed(t: string)
    ensures Strip(t) == t <==> Trimmed(t)
  {
    var a, b := StripTrims(t);
  }

  // ---------------------------------------------------------------- the tokenizer

  // The tokens of s, character by character: `item` is the unfinished item,
  // `next` says that an item is due even if it is empty.
  function Tokens(s: string, item: string, next: bool): seq<Token>
    decreases |s|
  {
    var finished := if item != "" || next then [Text(item)] else [];
    if s == "" then finished
    else if s[0] == '{' && item == "" then [Open] + Tokens(s[1..], "", |s| > 1 && s[1] != '}')
    else if s[0] == '}' then (finished + [Close]) + Tokens(s[1..], "", false)
    else if s[0] == ';' then finished + Tokens(s[1..], "", true)
    else Tokens(s[1..], item + [s[0]], next)
  }

  // Where the item at this position ends: the search for '}' or ';'.
  function End(line: string, pos: nat): (k: nat)
    requires pos <= |line|
    ensures pos <= k <= |line|
    ensures forall j :: pos <= j < k ==> line[j] != '}' && line[j] != ';'
    ensures k < |line| ==> line[k] == '}' || line[k] == ';'
    decreases |line| - pos
  {
    if pos == |line| || line[pos] == '}' || line[pos] == ';' then pos else End(line, pos + 1)
  }

  // Within an item only the item grows.
  lemma {:induction false} WithinItem(line: string, pos: nat, k: nat, next: bool)
    requires pos < |line| && line[pos] != '{' && pos <= k <= End(line, pos)
    ensures Tokens(line[pos..], "", next) == Tokens(line[k..], line[pos..k], next)
  {
    if pos < k {
      WithinItem(line, pos, k - 1, next);
      assert line[k - 1..][1..] == line[k..] && line[k - 1..][0] == line[k - 1];
      assert line[pos..k] == line[pos..k - 1] + [line[k - 1]];
    } else {
      assert line[pos..pos] == "";
    }
  }

  // What the separator at k adds.
  lemma AtSeparator(line: string, k: nat, item: string, next: bool)
    requires k < |line| && (line[k] == '}' || line[k] == ';')
    ensures Tokens(line[k..], item, next)
         == ((if item != "" || next then [Text(item)] else []) + (if line[k] == '}' then [Close] else []))
            + Tokens(line[k + 1..], "", line[k] == ';')
  {
  }

  lemma Append(a: seq<Token>, b: seq<Token>, c: seq<Token>)
    ensures a + (b + c) == (a + b) + c
  {
  }

  // One item with its separator.
  method NextItem(line: string, pos: nat, hasNextItem: bool) returns (more: seq<Token>, pos': nat, next: bool)
    requires pos < |line| && line[pos] != '{'
    ensures pos < pos' <= |line|
    ensures Tokens(line[pos..], "", hasNextItem) == more + Tokens(line[pos'..], "", next)
  {
    var end := End(line, pos);
    var item := line[pos..end];
    WithinItem(line, pos, end, hasNextItem);
    more := if pos < end || hasNextItem then [Text(item)] else [];
    if end == |line| {
      pos', next := end, false;
    } else {
      AtSeparator(line, end, item, hasNextItem);
      if line[end] == '}' {
        more := more + [Close];
      }
      pos', next := end + 1, line[end] == ';';
    }
  }

  lemma AtBrace(line: string, pos: nat, next: bool)
    requires pos < |line| && line[pos] == '{'
    ensures Tokens(line[pos..], "", next)
         == [Open] + Tokens(line[pos + 1..], "", pos + 1 < |line| && line[pos + 1] != '}')
  {
    assert line[pos..][1..] == line[pos + 1..];
  }

  // The loop of the tokenizer, one item or opening brace at a time.
  method Tokenize(line: string) returns (tokens: seq<Token>)
    ensures tokens == Tokens(line, "", line != "")
  {
    tokens := [];
    var pos := 0;
    var hasNextItem := pos < |line|;
    assert line[0..] == line;
    while pos < |line|
      invariant pos <= |line|
      invariant tokens + Tokens(line[pos..], "", hasNextItem) == Tokens(line, "", line != "")
    {
      var more: seq<Token> := [];
      if line[pos] == '{' {
        AtBrace(line, pos, hasNextItem);
        more := [Open];
        pos := pos + 1;
        hasNextItem := pos < |line| && line[pos] != '}';
      } else {
        more, pos, hasNextItem := NextItem(line, pos, hasNextItem);
      }
      Append(tokens, more, Tokens(line[pos..], "", hasNextItem));
      tokens := tokens + more;
    }
    if hasNextItem {
      tokens := tokens + [Text("")];
    }
  }

  // ---------------------------------------------------------------- the parser

  // These items are added to the list on top of the stack.
  function Push(stack: seq<seq<Item>>, items: seq<Item>): seq<seq<Item>>
    requires stack != []
  {
    stack[..|stack| - 1] + [stack[|stack| - 1] + items]
  }

  // What the tokens make of a stack of unfinished lists.
  function Fold(tokens: seq<Token>, stack: seq<seq<Item>>): Result
    requires stack != []
    decreases |tokens|
  {
    var top := |stack| - 1;
    if tokens == [] then
      if top == 0 then Ok(stack[0]) else Err(MismatchedParenthesis)
    else match tokens[0]
      case Open => Fold(tokens[1..], stack + [[]])
      case Close =>
        if top == 0 then Err(IndexOutOfRange)
        else Fold(tokens[1..], Push(stack[..top], [List(stack[top])]))
      case Text(t) => Fold(tokens[1..], Push(stack, [Atom(Strip(t))]))
  }

  function Parsed(line: string): Result {
    Fold(Tokens(line, "", line != ""), [[]])
  }

  // Opening minus closing braces.
  function Balance(tokens: seq<Token>): int {
    if tokens == [] then 0
    else (match tokens[0] case Open => 1 case Close => -1 case Text(_) => 0) + Balance(tokens[1..])
  }

  // Some closing brace comes before its opening one, `depth` lists being open.
  predicate ClosesTooMany(tokens: seq<Token>, depth: nat) {
    exists k :: 0 <= k <= |tokens| && depth + Balance(tokens[..k]) < 0
  }

  lemma ClosesLater(tokens: seq<Token>, depth: nat)
    requires tokens != [] && depth + Balance(tokens[..1]) >= 0
    ensures ClosesTooMany(tokens, depth) <==> ClosesTooMany(tokens[1..], depth + Balance(tokens[..1]))
  {
    var step, rest := Balance(tokens[..1]), tokens[1..];
    BalanceStep(tokens, 1);
    if ClosesTooMany(tokens, depth) {
      var k :| 0 <= k <= |tokens| && depth + Balance(tokens[..k]) < 0;
      assert tokens[..0] == [];
      BalanceStep(tokens, k);
      assert depth + step + Balance(rest[..k - 1]) < 0;
    }
    if ClosesTooMany(rest, depth + step) {
      var k :| 0 <= k <= |rest| && depth + step + Balance(rest[..k]) < 0;
      BalanceStep(tokens, k + 1);
      assert depth + Balance(tokens[..k + 1]) < 0;
    }
  }

  lemma BalanceStep(tokens: seq<Token>, k: nat)
    requires 0 < k <= |tokens|
    ensures Balance(tokens[..k]) == Balance(tokens[..1]) + Balance(tokens[1..][..k - 1])
  {
    assert tokens[..k][1..] == tokens[1..][..k - 1] && tokens[..1][1..] == [];
  }

  // Parsing fails with an index error exactly if a closing brace has no opening
  // one before it, and else with a mismatch exactly if the braces do not add up.
  lemma {:induction false} FoldErrors(tokens: seq<Token>, stack: seq<seq<Item>>)
    requires stack != []
    ensures var r, depth := Fold(tokens, stack), |stack| - 1;
            && (r == Err(IndexOutOfRange) <==> ClosesTooMany(tokens, depth))
            && (r == Err(MismatchedParenthesis) <==> !ClosesTooMany(tokens, depth) && depth + Balance(tokens) != 0)
    decreases |tokens|
  {
    var depth := |stack| - 1;
    if tokens == [] {
      assert forall k :: 0 <= k <= |tokens| ==> tokens[..k] == [];
    } else {
      var step := Balance(tokens[..1]);
      assert tokens[..1][0] == tokens[0] && tokens[..1][1..] == [];
      assert Balance(tokens[..1][1..]) == 0;
      if depth + step < 0 {
        assert tokens[0] == Close && depth == 0;
        assert depth + Balance(tokens[..1]) < 0;
      } else {
        ClosesLater(tokens, depth);
        match tokens[0]
        case Open => FoldErrors(tokens[1..], stack + [[]]);
        case Close => FoldErrors(tokens[1..], Push(stack[..depth], [List(stack[depth])]));
        case Text(t) => FoldErrors(tokens[1..], Push(stack, [Atom(Strip(t))]));
      }
    }
  }

  method Parse(line: string) returns (r: Result)
    ensures r == Parsed(line)
    ensures var tokens := Tokens(line, "", line != "");
            && (r == Err(IndexOutOfRange) <==> ClosesTooMany(tokens, 0))
            && (r == Err(MismatchedParenthesis) <==> !ClosesTooMany(tokens, 0) && Balance(tokens) != 0)
  {
    FoldErrors(Tokens(line, "", line != ""), [[]]);
    var tokens := Tokenize(line);
    var stack: seq<seq<Item>> := [[]];
    for k := 0 to |tokens|
      invariant stack != []
      invariant Fold(tokens[k..], stack) == Fold(tokens, [[]])
    {
      assert tokens[k..][0] == tokens[k] && tokens[k..][1..] == tokens[k + 1..];
      var top := |stack| - 1;
      match tokens[k] {
        case Open =>
          stack := stack + [[]];
        case Close =>
          if top == 0 {
            return Err(IndexOutOfRange);
          }
          stack := Push(stack[..top], [List(stack[top])]);
        case Text(t) =>
          stack := Push(stack, [Atom(Strip(t))]);
      }
    }
    if |stack| != 1 {
      return Err(MismatchedParenthesis);
    }
    r := Ok(stack[0]);
  }

  // ---------------------------------------------------------------- printing and parsing back

  // What reading back makes of a list: atoms without outer blanks, and a list
  // of one empty atom prints like an empty list.
  function NormItem(x: Item): Item {
    match x
    case Atom(t) => Atom(Strip(t))
    case List(m) => List(Norm(m))
  }

  function Norms(l: seq<Item>): seq<Item>
    decreases l, 0
  {
    if l == [] then [] else [NormItem(l[0])] + Norms(l[1..])
  }

  function Norm(l: seq<Item>): seq<Item>
    decreases l, 1
  {
    if l == [Atom("")] then [] else Norms(l)
  }

  function ItemTokens(x: Item): seq<Token> {
    match x
    case Atom(t) => [Text(t)]
    case List(m) => [Open] + ListTokens(m) + [Close]
  }

  function AllTokens(l: seq<Item>): seq<Token>
    decreases l, 0
  {
    if l == [] then [] else ItemTokens(l[0]) + AllTokens(l[1..])
  }

  function ListTokens(l: seq<Item>): seq<Token>
    decreases l, 1
  {
    if l == [Atom("")] then [] else AllTokens(l)
  }

  predicate EndsItem(r: string) {
    r == "" || r[0] == '}' || r[0] == ';'
  }

  lemma {:induction false} AtomTokens(t: string, item: string, r: string)
    requires Clean(t) && EndsItem(r)
    ensures Tokens(t + r, item, true) == [Text(item + t)] + Tokens(r, "", false)
  {
    if t == "" {
      assert t + r == r && item + t == item;
      if r != "" && r[0] == '}' {
        Append([Text(item)], [Close], Tokens(r[1..], "", false));
      }
    } else {
      assert !Special(t[0]) && (t + r)[1..] == t[1..] + r;
      assert (item + [t[0]]) + t[1..] == item + t;
      AtomTokens(t[1..], item + [t[0]], r);
    }
  }

  // The first character printed for a list is not a closing brace.
  lemma {:induction false} PrintStart(l: seq<Item>)
    requires CleanItems(l)
    ensures Print(l) == "" <==> l == [] || l == [Atom("")]
    ensures Print(l) != "" ==> Print(l)[0] != '}'
  {
  }

  lemma {:induction false} ItemTokenized(x: Item, r: string)
    requires CleanItem(x) && EndsItem(r)
    ensures Tokens(Show(x) + r, "", true) == ItemTokens(x) + Tokens(r, "", false)
    decreases x, 1
  {
    match x
    case Atom(t) =>
      AtomTokens(t, "", r);
      assert "" + t == t;
    case List(m) =>
      ListTokenized(m, "}" + r);
      BracesTokenized(m, r);
  }

  lemma OpenTokenized(inner: string)
    ensures Tokens("{" + inner, "", true) == [Open] + Tokens(inner, "", inner != "" && inner[0] != '}')
  {
  }

  lemma CloseTokenized(r: string)
    ensures Tokens("}" + r, "", false) == [Close] + Tokens(r, "", false)
  {
  }

  lemma BracesTokenized(m: seq<Item>, r: string)
    requires CleanItems(m)
    requires Tokens(Print(m) + ("}" + r), "", Print(m) != "") == ListTokens(m) + Tokens("}" + r, "", false)
    ensures Tokens(Show(List(m)) + r, "", true) == ItemTokens(List(m)) + Tokens(r, "", false)
  {
    var inner := Print(m) + ("}" + r);
    PrintStart(m);
    assert Print(m) != "" ==> inner[0] == Print(m)[0];
    assert Show(List(m)) + r == "{" + inner;
    OpenTokenized(inner);
    CloseTokenized(r);
    Append(ListTokens(m), [Close], Tokens(r, "", false));
    Append([Open], ListTokens(m) + [Close], Tokens(r, "", false));
    Append([Open], ListTokens(m), [Close]);
  }

  lemma PrintNext(l: seq<Item>, r: string)
    requires |l| > 1
    ensures Print(l) + r == Show(l[0]) + (";" + (Print(l[1..]) + r))
  {
    RegroupText(Show(l[0]), ";", Print(l[1..]), r);
  }

  lemma RegroupText(a: string, b: string, c: string, d: string)
    ensures (a + b + c) + d == a + (b + (c + d))
  {
  }

  lemma AfterSeparator(rest: string)
    ensures Tokens(";" + rest, "", false) == Tokens(rest, "", true)
  {
    assert (";" + rest)[1..] == rest;
  }

  lemma {:induction false} AllTokenized(l: seq<Item>, r: string)
    requires l != [] && CleanItems(l) && EndsItem(r)
    ensures Tokens(Print(l) + r, "", true) == AllTokens(l) + Tokens(r, "", false)
    decreases l, 0
  {
    if |l| == 1 {
      ItemTokenized(l[0], r);
      assert AllTokens(l[1..]) == [];
    } else {
      assert AllTokens(l) == ItemTokens(l[0]) + AllTokens(l[1..]);
      var first, rest, end := ItemTokens(l[0]), Print(l[1..]) + r, Tokens(r, "", false);
      assert Tokens(Print(l) + r, "", true) == first + Tokens(rest, "", true) by {
        PrintNext(l, r);
        ItemTokenized(l[0], ";" + rest);
        AfterSeparator(rest);
      }
      AllTokenized(l[1..], r);
      Append(first, AllTokens(l[1..]), end);
    }
  }

  lemma {:induction false} ListTokenized(m: seq<Item>, r: string)
    requires CleanItems(m) && EndsItem(r)
    ensures Tokens(Print(m) + r, "", Print(m) != "") == ListTokens(m) + Tokens(r, "", false)
    decreases m, 1
  {
    PrintStart(m);
    if Print(m) == "" {
      assert Print(m) + r == r;
    } else {
      AllTokenized(m, r);
    }
  }

  lemma PushNothing(stack: seq<seq<Item>>)
    requires stack != []
    ensures Push(stack, []) == stack
  {
    assert stack[|stack| - 1] + [] == stack[|stack| - 1];
  }

  lemma PushTwice(stack: seq<seq<Item>>, a: seq<Item>, b: seq<Item>)
    requires stack != []
    ensures Push(Push(stack, a), b) == Push(stack, a + b)
  {
    var top := |stack| - 1;
    assert (stack[top] + a) + b == stack[top] + (a + b);
    assert Push(stack, a)[..top] == stack[..top];
  }

  lemma {:induction false} ItemParsed(x: Item, rest: seq<Token>, stack: seq<seq<Item>>)
    requires stack != []
    ensures Fold(ItemTokens(x) + rest, stack) == Fold(rest, Push(stack, [NormItem(x)]))
    decreases x, 1
  {
    match x
    case Atom(t) => assert (ItemTokens(x) + rest)[1..] == rest;
    case List(m) =>
      var inner := ListTokens(m) + ([Close] + rest);
      assert ItemTokens(x) + rest == [Open] + inner;
      assert ([Open] + inner)[1..] == inner;
      ListParsed(m, [Close] + rest, stack + [[]]);
      assert [] + Norm(m) == Norm(m);
      var open := Push(stack + [[]], Norm(m));
      assert open == stack + [Norm(m)] && open[..|stack| - 1] == stack[..|stack| - 1];
      assert ([Close] + rest)[1..] == rest;
  }

  lemma {:induction false} AllParsed(l: seq<Item>, rest: seq<Token>, stack: seq<seq<Item>>)
    requires stack != []
    ensures Fold(AllTokens(l) + rest, stack) == Fold(rest, Push(stack, Norms(l)))
    decreases l, 0
  {
    if l == [] {
      assert AllTokens(l) + rest == rest;
      PushNothing(stack);
    } else {
      var stack' := Push(stack, [NormItem(l[0])]);
      Append(ItemTokens(l[0]), AllTokens(l[1..]), rest);
      ItemParsed(l[0], AllTokens(l[1..]) + rest, stack);
      AllParsed(l[1..], rest, stack');
      PushTwice(stack, [NormItem(l[0])], Norms(l[1..]));
    }
  }

  lemma {:induction false} ListParsed(m: seq<Item>, rest: seq<Token>, stack: seq<seq<Item>>)
    requires stack != []
    ensures Fold(ListTokens(m) + rest, stack) == Fold(rest, Push(stack, Norm(m)))
    decreases m, 1
  {
    if m == [Atom("")] {
      assert ListTokens(m) + rest == rest;
      PushNothing(stack);
    } else {
      AllParsed(m, rest, stack);
    }
  }

  // Parsing what was printed gives the list back, up to outer blanks and lists
  // of one empty atom.
  lemma ParsePrinted(l: seq<Item>)
    requires CleanItems(l)
    ensures Parsed(Print(l)) == Ok(Norm(l))
  {
    ListTokenized(l, "");
    assert Print(l) + "" == Print(l);
    assert ListTokens(l) + [] == ListTokens(l);
    ListParsed(l, [], [[]]);
    assert [] + Norm(l) == Norm(l);
  }

  // ---------------------------------------------------------------- exactly when nothing changes

  predicate TidyItem(x: Item) {
    match x
    case Atom(t) => t == "" || (!Blank(t[0]) && !Blank(t[|t| - 1]))
    case List(m) => Tidy(m)
  }

  predicate TidyItems(l: seq<Item>)
    decreases l, 0
  {
    l == [] || (TidyItem(l[0]) && TidyItems(l[1..]))
  }

  // No atom has outer blanks and no list is exactly one empty atom.
  predicate Tidy(l: seq<Item>)
    decreases l, 1
  {
    l != [Atom("")] && TidyItems(l)
  }

  lemma {:induction false} NormItemTidy(x: Item)
    ensures NormItem(x) == x <==> TidyItem(x)
    decreases x, 1
  {
    match x
    case Atom(t) => StripIfTrimmed(t);
    case List(m) => NormTidy(m);
  }

  lemma {:induction false} NormsTidy(l: seq<Item>)
    ensures |Norms(l)| == |l|
    ensures Norms(l) == l <==> TidyItems(l)
    decreases l, 0
  {
    if l != [] {
      NormItemTidy(l[0]);
      NormsTidy(l[1..]);
      assert l == [l[0]] + l[1..];
      if Norms(l) == l {
        assert Norms(l)[0] == l[0] && Norms(l)[1..] == l[1..];
      }
    }
  }

  lemma {:induction false} NormTidy(m: seq<Item>)
    ensures Norm(m) == m <==> Tidy(m)
    decreases m, 1
  {
    if m != [Atom("")] {
      NormsTidy(m);
    }
  }

  // Printing and parsing is the identity exactly on tidy lists.
  lemma RoundTrip(l: seq<Item>)
    requires CleanItems(l)
    ensures Parsed(Print(l)) == Ok(l) <==> Tidy(l)
  {
    ParsePrinted(l);
    NormTidy(l);
  }
}
