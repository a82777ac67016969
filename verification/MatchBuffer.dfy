// The multiline match buffer: an online matcher of several patterns, each a
// list of regular expressions for consecutive lines.  It keeps only the lines
// that may still become part of a match.
module MatchBuffer {

  type Line = string

  type Regexp = Line -> bool

  type Pattern = seq<Regexp>

  datatype Tag = Plain | Part(pattern: nat, index: nat)

  datatype Tagged = Tagged(tag: Tag, line: Line)

  // ---------------------------------------------------------------- the naive matcher

  // The last k lines match the first k regular expressions.
  predicate Suffix(p: Pattern, lines: seq<Line>, k: nat) {
    && k <= |p| && k <= |lines|
    && forall j :: 0 <= j < k ==> p[j](lines[|lines| - k + j])
  }

  predicate Full(p: Pattern, lines: seq<Line>) {
    Suffix(p, lines, |p|)
  }

  // Of the first n patterns the one that the lines end in: the longest, and
  // of the longest the first; -1 if there is none.
  function Best(patterns: seq<Pattern>, lines: seq<Line>, n: nat): (i: int)
    requires n <= |patterns|
    ensures -1 <= i < n
    ensures i >= 0 ==> |patterns[i]| <= |lines|
  {
    if n == 0 then -1
    else
      var i := Best(patterns, lines, n - 1);
      if Full(patterns[n - 1], lines) && (i == -1 || |patterns[n - 1]| > |patterns[i]|) then n - 1 else i
  }

  function Untagged(lines: seq<Line>): seq<Tagged> {
    seq(|lines|, n requires 0 <= n < |lines| => Tagged(Plain, lines[n]))
  }

  function Parts(i: nat, lines: seq<Line>): seq<Tagged> {
    seq(|lines|, n requires 0 <= n < |lines| => Tagged(Part(i, n), lines[n]))
  }

  // A match is reported exactly when the lines end in a full pattern.
  lemma {:induction false} BestIsLongest(patterns: seq<Pattern>, lines: seq<Line>, n: nat)
    requires n <= |patterns|
    ensures var i := Best(patterns, lines, n);
            && (i == -1 <==> forall j :: 0 <= j < n ==> !Full(patterns[j], lines))
            && (i >= 0 ==> Full(patterns[i], lines))
            && (forall j :: i >= 0 && 0 <= j < n && Full(patterns[j], lines)
                 ==> |patterns[j]| < |patterns[i]| || (|patterns[j]| == |patterns[i]| && i <= j))
  {
    if n > 0 {
      BestIsLongest(patterns, lines, n - 1);
    }
  }

  // All lines since the last match are kept and searched again after each line.
  datatype Op = Put(line: Line) | Flush

  datatype Naive = Naive(done: seq<Tagged>, since: seq<Line>)

  function Report(patterns: seq<Pattern>, s: Naive): Naive {
    var i := Best(patterns, s.since, |patterns|);
    if i == -1 then s
    else
      var mark := |s.since| - |patterns[i]|;
      Naive(s.done + Untagged(s.since[..mark]) + Parts(i, s.since[mark..]), [])
  }

  function Search(patterns: seq<Pattern>, ops: seq<Op>): Naive {
    if ops == [] then Naive([], [])
    else
      var s := Search(patterns, ops[..|ops| - 1]);
      match ops[|ops| - 1]
      case Put(line) => Report(patterns, Naive(s.done, s.since + [line]))
      case Flush => Naive(s.done + Untagged(s.since), [])
  }

  // ---------------------------------------------------------------- the buffer

  // d is the length of the longest match of a beginning of p at the end.
  predicate Deepest(p: Pattern, lines: seq<Line>, d: nat) {
    && Suffix(p, lines, d)
    && forall k :: d < k <= |p| ==> !Suffix(p, lines, k)
  }

  lemma SuffixShorter(p: Pattern, lines: seq<Line>, line: Line, k: nat)
    requires k < |p| && Suffix(p, lines + [line], k + 1)
    ensures Suffix(p, lines, k) && p[k](line)
  {
  }

  lemma SuffixLonger(p: Pattern, lines: seq<Line>, line: Line, k: nat)
    requires k < |p| && Suffix(p, lines, k) && p[k](line)
    ensures Suffix(p, lines + [line], k + 1)
  {
  }

  lemma SuffixOfTail(p: Pattern, lines: seq<Line>, cut: nat, k: nat)
    requires cut <= |lines| && k <= |lines| - cut
    ensures Suffix(p, lines[cut..], k) <==> Suffix(p, lines, k)
  {
  }

  // Every depth is the longest match, and within the last n lines.
  predicate Tracks(patterns: seq<Pattern>, lines: seq<Line>, depths: seq<nat>, n: nat) {
    && |depths| == |patterns|
    && forall i :: 0 <= i < |patterns| ==> depths[i] <= n && Deepest(patterns[i], lines, depths[i])
  }

  // A longer match would have been a longer match one line before.
  lemma DeepestBound(p: Pattern, lines: seq<Line>, line: Line, d: nat, k: nat)
    requires Deepest(p, lines, d) && d < |p| && k <= |p| && Suffix(p, lines + [line], k)
    ensures k <= d + 1 && (k == d + 1 ==> p[d](line))
  {
    if k > 0 {
      SuffixShorter(p, lines, line, k - 1);
    }
  }

  function Max(depths: seq<nat>): (m: nat)
    requires depths != []
    ensures forall i :: 0 <= i < |depths| ==> depths[i] <= m
    ensures m in depths
  {
    if |depths| == 1 then depths[0]
    else
      var m := Max(depths[1..]);
      if depths[0] > m then depths[0] else m
  }

  // What a get yields and keeps: `left` lines in the buffer.
  predicate Got(patterns: seq<Pattern>, lines: seq<Line>, buffer: seq<Line>, flush: bool,
                out: seq<Tagged>, left: nat, since: seq<Line>) {
    var found := Best(patterns, lines, |patterns|);
    if found >= 0 then
      var mark := |buffer| - |patterns[found]|;
      mark >= 0 && left == 0 && since == [] && out == Untagged(buffer[..mark]) + Parts(found, buffer[mark..])
    else if flush then
      left == 0 && since == [] && out == Untagged(buffer)
    else
      |out| + left == |buffer| && since == lines && out == Untagged(buffer[..|out|])
  }

  function Zeros(n: nat): (z: seq<nat>)
    ensures |z| == n && forall i :: 0 <= i < n ==> z[i] == 0
  {
    if n == 0 then [] else Zeros(n - 1) + [0]
  }

  lemma NothingYet(patterns: seq<Pattern>)
    requires patterns != [] && forall i :: 0 <= i < |patterns| ==> patterns[i] != []
    ensures Buffered(patterns, [], Zeros(|patterns|), [])
    ensures forall i :: 0 <= i < |patterns| ==> Zeros(|patterns|)[i] < |patterns[i]|
    ensures Max(Zeros(|patterns|)) == 0
  {
  }

  // Every depth is what the naive matcher would find in all the lines since
  // the last reset, and the buffer holds what the depths stand for.
  predicate Buffered(patterns: seq<Pattern>, buffer: seq<Line>, depths: seq<nat>, since: seq<Line>) {
    && patterns != [] && |depths| == |patterns|
    && (forall i :: 0 <= i < |patterns| ==> patterns[i] != [])
    && |buffer| <= |since| && buffer == since[|since| - |buffer|..]
    && Tracks(patterns, since, depths, |buffer|)
  }

  class MMB {
    const patterns: seq<Pattern>
    var buffer: seq<Line>
    var depths: seq<nat>
    ghost var since: seq<Line>

    ghost predicate Valid()
      reads this
    {
      Buffered(patterns, buffer, depths, since)
    }

    ghost predicate NoneFull()
      reads this
    {
      |depths| == |patterns| && forall i :: 0 <= i < |patterns| ==> depths[i] < |patterns[i]|
    }

    constructor (patterns: seq<Pattern>)
      requires patterns != [] && forall i :: 0 <= i < |patterns| ==> patterns[i] != []
      ensures this.patterns == patterns && Valid() && NoneFull() && since == [] && buffer == []
    {
      this.patterns, buffer, since := patterns, [], [];
      depths := Zeros(|patterns|);
      new;
      NothingYet(patterns);
    }

    // The new depth of one pattern, the line being already in the buffer.
    method Deepen(p: Pattern, depth: nat, ghost lines: seq<Line>, ghost line: Line) returns (d: nat)
      requires depth < |p| && depth < |buffer| <= |lines| + 1
      requires Deepest(p, lines, depth) && buffer == (lines + [line])[|lines| + 1 - |buffer|..]
      ensures d <= |buffer| && Deepest(p, lines + [line], d)
    {
      ghost var more := lines + [line];
      d := depth;
      if p[depth](buffer[|buffer| - 1]) {
        d := depth + 1;
        SuffixLonger(p, lines, line, depth);
      } else {
        while d > 0 && !Suffix(p, buffer, d)
          invariant d <= depth
          invariant forall k :: d < k <= depth ==> !Suffix(p, more, k)
        {
          SuffixOfTail(p, more, |more| - |buffer|, d);
          d := d - 1;
        }
        SuffixOfTail(p, more, |more| - |buffer|, d);
      }
      forall k | d < k <= |p|
        ensures !Suffix(p, more, k)
      {
        if Suffix(p, more, k) {
          DeepestBound(p, lines, line, depth, k);
        }
      }
    }

    method Put(line: Line)
      requires Valid() && NoneFull()
      modifies this
      ensures Valid() && since == old(since) + [line] && buffer == old(buffer) + [line]
    {
      buffer := buffer + [line];
      ghost var lines := since;
      since := since + [line];
      for i := 0 to |patterns|
        invariant buffer == old(buffer) + [line] && since == old(since) + [line]
        invariant |depths| == |patterns|
        invariant forall j :: 0 <= j < i ==> depths[j] <= |buffer| && Deepest(patterns[j], since, depths[j])
        invariant forall j :: i <= j < |depths| ==> depths[j] == old(depths[j])
      {
        var d := Deepen(patterns[i], depths[i], lines, line);
        depths := depths[i := d];
      }
    }

    // The pattern to report: of those fully found the longest, then the first.
    method FindFull() returns (found: int)
      requires Valid()
      ensures found == Best(patterns, since, |patterns|)
      ensures found >= 0 ==> depths[found] == |patterns[found]|
      ensures found == -1 <==> NoneFull()
    {
      found := -1;
      for j := 0 to |patterns|
        invariant found == Best(patterns, since, j)
        invariant found == -1 ==> forall k :: 0 <= k < j ==> depths[k] < |patterns[k]|
        invariant found >= 0 ==> depths[found] == |patterns[found]|
      {
        assert depths[j] == |patterns[j]| <==> Full(patterns[j], since);
        if depths[j] == |patterns[j]| && (found == -1 || |patterns[j]| > |patterns[found]|) {
          found := j;
        }
      }
    }

    lemma NoneFound()
      requires Valid() && NoneFull()
      ensures Best(patterns, since, |patterns|) == -1
    {
      BestIsLongest(patterns, since, |patterns|);
    }

    method Reset()
      requires Valid()
      modifies this
      ensures Valid() && NoneFull() && buffer == [] && since == [] && Max(depths) == 0
    {
      NothingYet(patterns);
      buffer, depths, since := [], Zeros(|patterns|), [];
    }

    // Keeps what the deepest unfinished match needs.
    method TrimTo(mark: nat)
      requires Valid() && mark <= |buffer| && Max(depths) <= |buffer| - mark
      modifies `buffer
      ensures Valid() && buffer == old(buffer)[mark..]
    {
      buffer := buffer[mark..];
    }

    // Yields the lines that cannot become part of a match any more and, after a
    // match or on a flush, all lines.
    method Get(flush: bool) returns (out: seq<Tagged>)
      requires Valid()
      modifies this
      ensures Valid() && NoneFull() && |buffer| == Max(depths)
      ensures Got(patterns, old(since), old(buffer), flush, out, |buffer|, since)
    {
      var found := FindFull();
      var markDepth := if found >= 0 then depths[found] else Max(depths);
      var mark := |buffer| - markDepth;
      out := Untagged(buffer[..mark]);
      if found >= 0 {
        out := out + Parts(found, buffer[mark..]);
        Reset();
      } else {
        TrimTo(mark);
        if flush {
          UntaggedJoin(old(buffer), mark);
          out := out + Untagged(buffer);
          Reset();
        }
      }
    }
  }

  // ---------------------------------------------------------------- the buffer finds what the naive matcher finds

  function Lines(tagged: seq<Tagged>): seq<Line> {
    seq(|tagged|, n requires 0 <= n < |tagged| => tagged[n].line)
  }

  function PutLines(ops: seq<Op>): seq<Line> {
    if ops == [] then []
    else
      var rest := PutLines(ops[..|ops| - 1]);
      match ops[|ops| - 1]
      case Put(line) => rest + [line]
      case Flush => rest
  }

  // What has been delivered when `left` of the lines since the last reset are
  // still in the buffer.
  predicate Delivered(patterns: seq<Pattern>, ops: seq<Op>, since: seq<Line>, left: nat, delivered: seq<Tagged>) {
    var s := Search(patterns, ops);
    since == s.since && left <= |since| && delivered == s.done + Untagged(since[..|since| - left])
  }

  // Everything is got after every put; what is got goes to the callback.
  class MMBWithTimeout {
    const mmb: MMB
    var delivered: seq<Tagged>
    ghost var ops: seq<Op>

    // The callback has received what the naive matcher has reported, and those
    // of the lines since then that are not in the buffer.
    ghost predicate Valid()
      reads this, mmb
    {
      && mmb.Valid() && mmb.NoneFull()
      && |mmb.buffer| == Max(mmb.depths)
      && Delivered(mmb.patterns, ops, mmb.since, |mmb.buffer|, delivered)
    }

    constructor (patterns: seq<Pattern>)
      requires patterns != [] && forall i :: 0 <= i < |patterns| ==> patterns[i] != []
      ensures Valid() && fresh(mmb) && mmb.patterns == patterns && ops == []
    {
      mmb := new MMB(patterns);
      delivered, ops := [], [];
    }

    method Put(line: Line)
      requires Valid()
      modifies this, mmb
      ensures Valid() && ops == old(ops) + [Op.Put(line)]
    {
      ghost var since, buffer := mmb.since, mmb.buffer;
      mmb.Put(line);
      var out := mmb.Get(false);
      PutDelivers(mmb.patterns, ops, since, buffer, line, delivered, out, |mmb.buffer|, mmb.since);
      delivered := delivered + out;
      ops := ops + [Op.Put(line)];
    }

    // The flush that the timer makes.  The public flush calls a method of the
    // buffer that does not exist before it comes to this.
    method InternalFlush()
      requires Valid()
      modifies this, mmb
      ensures Valid() && ops == old(ops) + [Op.Flush]
      ensures mmb.buffer == [] && delivered == Search(mmb.patterns, ops).done
    {
      mmb.NoneFound();
      FlushDelivers(mmb.patterns, ops, mmb.since, |mmb.buffer|, delivered);
      var out := mmb.Get(true);
      delivered := delivered + out;
      ops := ops + [Op.Flush];
    }
  }

  lemma SearchNext(patterns: seq<Pattern>, ops: seq<Op>, op: Op)
    ensures var s := Search(patterns, ops);
            Search(patterns, ops + [op])
            == match op
               case Put(line) => Report(patterns, Naive(s.done, s.since + [line]))
               case Flush => Naive(s.done + Untagged(s.since), [])
  {
  }

  lemma TailNext(lines: seq<Line>, kept: nat, line: Line)
    requires kept <= |lines|
    ensures lines[kept..] + [line] == (lines + [line])[kept..] && (lines + [line])[..kept] == lines[..kept]
  {
  }

  // A get after a put.
  lemma PutDelivers(patterns: seq<Pattern>, ops: seq<Op>, lines: seq<Line>, buffer: seq<Line>, line: Line,
                    delivered: seq<Tagged>, out: seq<Tagged>, left: nat, since: seq<Line>)
    requires |buffer| <= |lines| && buffer == lines[|lines| - |buffer|..]
    requires Delivered(patterns, ops, lines, |buffer|, delivered)
    requires Got(patterns, lines + [line], buffer + [line], false, out, left, since)
    ensures Delivered(patterns, ops + [Op.Put(line)], since, left, delivered + out)
  {
    var kept := |lines| - |buffer|;
    var more, done := lines + [line], Search(patterns, ops).done;
    assert buffer + [line] == more[kept..] && delivered == done + Untagged(more[..kept]) by {
      TailNext(lines, kept, line);
    }
    ReportDelivers(patterns, done, more, kept, out, left, since);
    SearchNext(patterns, ops, Op.Put(line));
  }

  lemma ReportDelivers(patterns: seq<Pattern>, done: seq<Tagged>, lines: seq<Line>, kept: nat,
                       out: seq<Tagged>, left: nat, since: seq<Line>)
    requires kept <= |lines| && Got(patterns, lines, lines[kept..], false, out, left, since)
    ensures var s := Report(patterns, Naive(done, lines));
            && since == s.since && left <= |since|
            && (done + Untagged(lines[..kept])) + out == s.done + Untagged(since[..|since| - left])
  {
  }

  lemma FlushDelivers(patterns: seq<Pattern>, ops: seq<Op>, since: seq<Line>, left: nat, delivered: seq<Tagged>)
    requires Delivered(patterns, ops, since, left, delivered)
    ensures var out := Untagged(since[|since| - left..]);
            && Delivered(patterns, ops + [Op.Flush], [], 0, delivered + out)
            && delivered + out == Search(patterns, ops + [Op.Flush]).done
  {
  }

  lemma UntaggedJoin(lines: seq<Line>, mark: nat)
    requires mark <= |lines|
    ensures Untagged(lines) == Untagged(lines[..mark]) + Untagged(lines[mark..])
  {
  }

  // ---------------------------------------------------------------- no line is lost, every tag is a match

  lemma LinesJoin(a: seq<Tagged>, b: seq<Line>)
    ensures Lines(a + Untagged(b)) == Lines(a) + b
  {
  }

  lemma {:induction false} SearchConserves(patterns: seq<Pattern>, ops: seq<Op>)
    ensures var s := Search(patterns, ops);
            Lines(s.done) + s.since == PutLines(ops)
  {
    if ops != [] {
      var before := ops[..|ops| - 1];
      var s := Search(patterns, before);
      SearchConserves(patterns, before);
      match ops[|ops| - 1]
      case Put(line) => ReportConserves(patterns, Naive(s.done, s.since + [line]));
      case Flush => LinesJoin(s.done, s.since);
    }
  }

  lemma ReportConserves(patterns: seq<Pattern>, s: Naive)
    ensures var r := Report(patterns, s);
            Lines(r.done) + r.since == Lines(s.done) + s.since
  {
  }

  // What the callback has received and what is in the buffer are the lines put.
  lemma DeliveredConserves(patterns: seq<Pattern>, ops: seq<Op>, since: seq<Line>, left: nat, delivered: seq<Tagged>)
    requires Delivered(patterns, ops, since, left, delivered)
    ensures Lines(delivered) + since[|since| - left..] == PutLines(ops)
  {
    var s := Search(patterns, ops);
    var sent := since[..|since| - left];
    SearchConserves(patterns, ops);
    LinesJoin(s.done, sent);
    Regroup(Lines(s.done), sent, since[|since| - left..]);
    assert sent + since[|since| - left..] == since;
  }

  lemma Regroup(a: seq<Line>, b: seq<Line>, c: seq<Line>)
    ensures (a + b) + c == a + (b + c)
  {
  }

  predicate AllPlain(tagged: seq<Tagged>, lines: seq<Line>) {
    |tagged| == |lines| && forall k :: 0 <= k < |lines| ==> tagged[k] == Tagged(Plain, lines[k])
  }

  predicate AllParts(tagged: seq<Tagged>, i: nat, lines: seq<Line>) {
    |tagged| == |lines| && forall k :: 0 <= k < |lines| ==> tagged[k] == Tagged(Part(i, k), lines[k])
  }

  // With a match the lines before it are reported plain and its own lines with
  // their places in the pattern.
  lemma PutTags(patterns: seq<Pattern>, ops: seq<Op>, line: Line) returns (plain: seq<Tagged>, parts: seq<Tagged>)
    ensures var s, lines := Search(patterns, ops), Search(patterns, ops).since + [line];
            var i := Best(patterns, lines, |patterns|);
            if i == -1 then Search(patterns, ops + [Op.Put(line)]) == Naive(s.done, lines)
            else
              var mark := |lines| - |patterns[i]|;
              && Search(patterns, ops + [Op.Put(line)]) == Naive(s.done + plain + parts, [])
              && AllPlain(plain, lines[..mark]) && AllParts(parts, i, lines[mark..])
  {
    var lines := Search(patterns, ops).since + [line];
    var i := Best(patterns, lines, |patterns|);
    SearchNext(patterns, ops, Op.Put(line));
    plain, parts := [], [];
    if i >= 0 {
      var mark := |lines| - |patterns[i]|;
      plain, parts := Untagged(lines[..mark]), Parts(i, lines[mark..]);
    }
  }

  // On a flush all lines are plain.
  lemma FlushTags(patterns: seq<Pattern>, ops: seq<Op>) returns (plain: seq<Tagged>)
    ensures Search(patterns, ops + [Flush]) == Naive(Search(patterns, ops).done + plain, [])
    ensures AllPlain(plain, Search(patterns, ops).since)
  {
    SearchNext(patterns, ops, Flush);
    plain := Untagged(Search(patterns, ops).since);
  }

  predicate TagMatches(patterns: seq<Pattern>, t: Tagged) {
    match t
    case Tagged(Part(i, n), line) => i < |patterns| && n < |patterns[i]| && patterns[i][n](line)
    case Tagged(Plain, _) => true
  }

  lemma ReportTagsMatch(patterns: seq<Pattern>, s: Naive, k: nat)
    requires |s.done| <= k < |Report(patterns, s).done|
    ensures TagMatches(patterns, Report(patterns, s).done[k])
  {
    var i := Best(patterns, s.since, |patterns|);
    BestIsLongest(patterns, s.since, |patterns|);
    var mark := |s.since| - |patterns[i]|;
    var n := k - |s.done| - mark;
    if n >= 0 {
      assert patterns[i][n](s.since[|s.since| - |patterns[i]| + n]);
    }
  }

  // A line delivered as line n of pattern i matches its regular expression.
  lemma {:induction false} TagsMatch(patterns: seq<Pattern>, ops: seq<Op>, k: nat)
    requires k < |Search(patterns, ops).done|
    ensures TagMatches(patterns, Search(patterns, ops).done[k])
  {
    var before := ops[..|ops| - 1];
    var s := Search(patterns, before);
    if k < |s.done| {
      TagsMatch(patterns, before, k);
    } else if ops[|ops| - 1].Put? {
      ReportTagsMatch(patterns, Naive(s.done, s.since + [ops[|ops| - 1].line]), k);
    }
  }
}
