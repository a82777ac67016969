# Verified model of the sampler

This project models the parts of the sampler whose correctness is not visible
from any single function, and proves what they promise:

- the **lock-step protocol** between the master thread and the worker threads
  (`LockStep.dfy`, `StrayTokens.dfy`): one message queue and two counting
  semaphores shared by any number of threads, in every interleaving, with
  workers that may die in their task;
- the **log follower** with its back-log (`LogFollower.dfy`, `LogEvents.dfy`):
  a reader of a growing file that posts events to itself, alone and together
  with any number of others on one event semaphore;
- the **delayed evaluation of signals** (`Signals.dfy`, `RawValues.dfy`,
  `SignalEngine.dfy`): formulas that read past and future entries of other
  signals;
- the **multiline match buffer** (`MatchBuffer.dfy`);
- the **text formats and the merger**: the nested `{;}` text
  (`SampleText.dfy`), the sample and legend lines (`SampleLine.dfy`,
  `Decimal.dfy`), the field cutters (`FieldCutters.dfy`), the sub-index field
  (`SubIndex.dfy`) and the merge by time (`Merger.dfy`).

## How it is built

The protocol is a transition system: a state holds a program counter for every
thread, the queue and the token counts; an action is one atomic step of one
thread; a run is any sequence of enabled actions. Everything else follows the
form of the program: classes with the program's fields and loops, each method
proved against a function of the old state, and lemmas about those functions.

- In `Signals.dfy` a formula is asked for one request after another (an entry
  at an offset, an inclusive slice, a time) and sees the answers, so what it
  reads may depend on what it has read. `Stream` is the table of computed
  entries after some samples, `Meaning` the value of an entry by the formulas
  alone, without table, order or delay.
- In `RawValues.dfy` a formula is a list of reads and a result; it says exactly
  for which of them every entry is right. Streams there are those the program
  can receive: strictly rising times of at least 0.5, and raw values from any
  given sets that hold the missing value, such as `InSample`.
- In `LogFollower.dfy` the file may grow before every line a call reads;
  `Serve` is the effect of one call. In `LogEvents.dfy` growth is notified by an
  event some time later, growth before that brings no second notification, and
  one event is posted at the start.
- In `MatchBuffer.dfy` `Search` is the naive matcher that keeps every line
  since the last match.

## Where the code differs from what it is meant to do

- A dying worker takes its barrier-2 token only after it has been counted as
  arrived. If the master posts barrier 1 before that, a live worker can take
  the stray token, run a second lap and be counted for a worker still in its
  task. `StrayTokens.StrayTokenCondition` gives the exact condition for one
  round, `StrayTokens.PatientRunsAreSafe` safety of whole runs under it, and
  `StrayTokens.HarvestCanCatchTask` a run of three workers that breaks it.
- A formula that looks at its raw value and can be made to wait by a read is
  evaluated with the raw value of a later sample
  (`Signals.MixedFormulaGetsWrongRaw`). `RawValues.RightExactly` and
  `RawValues.RightInEveryOrder` say exactly when no entry goes wrong: if no read
  can make the formula wait, or its result is blind to the raw values it can
  meet. A signal without a column has only one, so it is always right
  (`RawValues.RightWithoutColumn`).
- `rcutexec` tests the wrong way round after its loop. On a line without
  line-end characters that does not begin with a delimiter, the start of the
  leftmost field is not stored; on the others one entry more is started, past
  the end of the array if that is full (`FieldCutters.RCutExec`,
  `FieldCutters.OpenIfLeadsIn`, `FieldCutters.StoredMirror`); on `a b` the start
  stays what it was (`FieldCutters.StoredMirrorFails`).
- The public `flush` of the match buffer with a time-out calls a method that
  does not exist; the flush modelled is the internal one that the timer makes.
- A list of exactly one empty atom prints like an empty list
  (`SampleText.RoundTrip`).
- A signal definition whose sub-index field holds only separators has no
  sub-signal (`SubIndex.NoSubSignals`), but the legend line still has a column
  for it (`SampleLine.ColumnsAgree`), so that later cells stand under the wrong
  names (`SampleLine.ColumnsShift`).

## Model

| member | source | states |
|---|---|---|
| LockStep.KeepsInv | lib/libsampler/masters.c:66-89 | every step of any thread keeps the balance of workers, messages and tokens, if dying workers take their token before barrier 1 is next posted |
| LockStep.NoTaskDuringHarvest | lib/libsampler/masters.c:154-186 | from the start of a harvest to the next post of barrier 1 no worker is in its task, for any number of workers and any interleaving |
| LockStep.TaskRunOncePerRound | lib/libsampler/workers.c:92-161 | at each harvest every live worker has run its task exactly once per completed round |
| LockStep.SamplesAreLastValues | lib/libsampler/workers.c:119-149 | whoever dies, the value printed for a last-value signal in any sample is the last value read at or before that round, every later task having read none, or "0" if none was read; nothing is printed for a worker from the round of its death on |
| LockStep.UpdatedIfRead | lib/libsampler/master_tasks.c:145-159 | a worker's cell is printed as updated exactly if its task of this round has read a value |
| LockStep.EventsMakeRounds | lib/libsampler/masters.c:163-164 | in every run, prompt or not: each event posted is still pending or has begun one round, sampled or under way |
| LockStep.QueueNeverBlocks | lib/libsampler/masters.c:143-152 | the queue holds at most one message of each worker, so it never fills its N+1 slots and no send blocks |
| LockStep.MessagesOnStep | lib/libsampler/masters.c:75-80 | a message consumed in step k reports check-point k, or is a death counted as a step-2 arrival |
| LockStep.WorkersCounted | lib/libsampler/masters.c:174-179 | whenever the master waits for an event its worker count is the number of live workers and no death is unaccounted for |
| LockStep.SomeStepEnabled | lib/libsampler/masters.c:163-186 | in a round some thread can always move |
| LockStep.StepMeasured | lib/libsampler/masters.c:163-186 | every step of a thread within a round lowers a measure linear in the number of workers |
| LockStep.RoundEnds | lib/libsampler/masters.c:163-186 | once an event is taken no schedule keeps the master from the harvest: no deadlock, at most 12 n + 5 steps |
| LockStep.FreeRunsArePrompt | lib/libsampler/workers.c:166-183 | a run without deaths meets the condition on dying workers, so all the above hold of it |
| StrayTokens.StrayTokenCondition | lib/libsampler/workers.c:175-180 | when barrier 1 is about to be posted, every schedule of the round keeps tasks out of the harvest if and only if no dying worker still waits for its token or at most one worker is left |
| StrayTokens.PatientRunsAreSafe | lib/libsampler/masters.c:85-86 | every run that meets this condition at each post of barrier 1 keeps tasks out of all its harvests, however many rounds and deaths it has |
| StrayTokens.PatientRunsCount | lib/libsampler/masters.c:174-179 | in every such run the worker count is the number of live workers, and no death is unaccounted for, whenever the master waits for an event |
| StrayTokens.PatienceIsExact | lib/libsampler/masters.c:85-86 | wherever such a run comes to post barrier 1, the condition there is necessary and sufficient for the coming round |
| StrayTokens.BreakingSchedule | lib/libsampler/workers.c:175-180 | otherwise there is a schedule that harvests while a worker is in its task |
| StrayTokens.StrayTokenHappens | lib/libsampler/workers.c:166-183 | the state in which the condition fails is reached by a run of three workers |
| StrayTokens.HarvestCanCatchTask | lib/libsampler/workers.c:166-183 | a complete run from the start that harvests a worker in its task |
| LogFollower.Follower.FindLine | lib/libsampler/worker_tasks.c:384-422 | reads to the first matching line at or after the position, or to the end, while the file grows |
| LogFollower.Follower.ScanToEnd | lib/libsampler/worker_tasks.c:505-544 | posts exactly one event for every matching line after the position |
| LogFollower.Follower.Harvest | lib/libsampler/worker_tasks.c:454-566 | takes the line just read, counts down the back-log, and scans the rest unless back-logged lines remain |
| LogFollower.Follower.Call | lib/libsampler/worker_tasks.c:319-567 | one call has the effect of `Serve` on positions, back-log, harvested lines and events, whatever the file gains meanwhile |
| LogFollower.CallServes | lib/libsampler/worker_tasks.c:384-566 | a call harvests the first matching line not yet harvested, in order, or there is none; the harvested lines stay the matching lines before `fp_valid` and the back-log the matching lines from there to the last full scan |
| LogEvents.StepKeepsInv | lib/libsampler/worker_tasks.c:454-545 | every append, notification, event, round and call keeps an event for each back-logged line and one more event or notification for lines not yet seen |
| LogEvents.HarvestIsExact | lib/libsampler/worker_tasks.c:384-566 | in every run the harvested lines are exactly the matching lines before `fp_valid` and the back-log exactly counts those up to the last full scan |
| LogEvents.EventsCoverBacklogs | lib/libsampler/masters.c:163-171 | at every round boundary the event count is at least the back-log of every follower on the semaphore |
| LogEvents.NothingIsLost | lib/libsampler/eventgens.c:75 | when no event is left and none is to come every matching line of every file has been harvested, even if notifications of several changes are merged into one |
| LogEvents.EventsAreConserved | lib/libsampler/worker_tasks.c:537 | every event is a notification, a post of somebody else or one posted for a back-logged line, and every round takes one |
| LogEvents.RoundsRunOut | lib/libsampler/worker_tasks.c:528-545 | left alone the followers use up their events and notifications in a bounded number of rounds |
| LogEvents.StopsWithoutEvents | lib/libsampler/masters.c:163-171 | they stop only at a round boundary without events and without notifications to come |
| LogEvents.LeftAloneAllIsHarvested | lib/libsampler/masters.c:163-171 | left alone after any run they stop within a bounded number of steps, and then every matching line of every file has been harvested, in order |
| LogEvents.InitInv | lib/libsampler/runengine.c:268-279 | the event posted at the start pays for what the files already hold |
| Signals.EvaluateGrows | scripts/tests/sampler-plot:575-610 | an entry once computable has the same value on every larger table |
| Signals.StreamGrows | scripts/tests/sampler-plot:844-880 | a computed entry is never rewritten, however long the stream goes on |
| Signals.StreamRight | scripts/tests/sampler-plot:844-878 | every computed entry is what its formula gives on the table, whatever the order of the signals and the delay |
| Signals.EntriesAreFinal | scripts/tests/sampler-plot:844-888 | an entry computed at any moment before the catch-up equals its formula evaluated on the final table at that index |
| Signals.StreamExplained | scripts/tests/sampler-plot:869-876 | for any formulas at all: an entry is its formula on the table with the raw value of its own or a later sample |
| Signals.StreamIsMeaning | scripts/tests/sampler-plot:844-878 | every computed entry is the meaning of that entry by the formulas alone |
| Signals.OrderDoesNotMatter | scripts/tests/sampler-plot:869-876 | two streams over the same samples, in any order of signals and stopped anywhere, agree on every common entry |
| Signals.PunctualDone | scripts/tests/sampler-plot:824-831 | a formula that reads only the past, such as the accumulator, is computed with its own sample |
| Signals.MixedFormulaGetsWrongRaw | scripts/tests/sampler-plot:869-876 | a formula mixing its raw value with a read of the future gets the raw value of a later sample |
| RawValues.RightExactly | scripts/tests/sampler-plot:869-876 | for a formula with any fixed list of reads of times and other signals, at any place in the order: every entry of every stream the program can receive is right if and only if no read can make it wait or its result is blind to the raw values a sample can hold |
| RawValues.RightInEveryOrder | scripts/tests/sampler-plot:869-876 | in every order of the signals: if and only if it reads only times up to its own and entries before its own, or is blind to the raw values a sample can hold |
| RawValues.WaitingIsWrong | scripts/tests/sampler-plot:869-876 | otherwise there are samples, such as the program can receive, for which a computed entry is wrong |
| RawValues.RightWithoutColumn | scripts/tests/sampler-plot:873 | a signal without a column in the samples has no raw value to confuse, so its entries are right whatever it reads |
| RawValues.TakesLaterRaw | scripts/tests/sampler-plot:869-876 | an entry that has to wait is computed from the raw value of the sample it waits for |
| RawValues.KeepsUp | scripts/tests/sampler-plot:869-876 | a signal is never more samples behind than the longest lag of its reads |
| Signals.ForceAllShortens | scripts/tests/sampler-plot:880-888 | a forcing pass shortens the back-log while a signal has one |
| Signals.CatchUpForces | scripts/tests/sampler-plot:880-888 | every entry computed in the catch-up is what its formula gives, without a raw value, on a table on the way to the final one, or missing where it would have been delayed |
| Signals.EarlyReadIsMissing | scripts/tests/sampler-plot:596-599 | a read before the start of the stream makes the entry missing |
| Signals.CatchUp | scripts/tests/sampler-plot:880-888 | the final loop ends with nothing delayed and every computed entry kept |
| SignalEngine.BisectLeftIs | scripts/tests/sampler-plot:565 | the first time that is not before the one looked up |
| SignalEngine.BisectFinds | scripts/tests/sampler-plot:711-712 | with increasing times the clock is centred on the entry whose time is looked up |
| SignalEngine.Clock.Push | scripts/tests/sampler-plot:559-571 | appends to the three time columns and trims them to the window found by bisecting on 0.5 |
| SignalEngine.Clock.Append | scripts/tests/sampler-plot:686-706 | with times of at least 0.5 nothing is dropped and the columns show the time, the time since the start and since the last sample |
| SignalEngine.Signal.NormalizeIndex | scripts/tests/sampler-plot:511-536 | an offset before the start is too old, one past the end or on a delayed entry is not there yet |
| SignalEngine.Signal.GetSlice | scripts/tests/sampler-plot:537-542 | an inclusive slice gives exactly the entries between its ends and never a delayed one; of the two ends the first decides |
| SignalEngine.SignalProcessor.Eval | scripts/tests/sampler-plot:575-610 | running a formula gives its evaluation on the table of computed entries |
| SignalEngine.SignalProcessor.SetCenters | scripts/tests/sampler-plot:893-902 | both clocks are centred on the oldest delayed entry of the signal |
| SignalEngine.SignalProcessor.Calc | scripts/tests/sampler-plot:893-926 | computes the oldest delayed entry or leaves it delayed; each list stays computed entries followed by exactly `_signal_expr_center`+1 delayed ones |
| SignalEngine.SignalProcessor.DrainSignal | scripts/tests/sampler-plot:869-876 | a signal is computed entry by entry until one is delayed |
| SignalEngine.RowsAre | scripts/tests/sampler-plot:913-921 | which entries are plotted, with which values and times |
| SignalEngine.SignalProcessor.Feed | scripts/tests/sampler-plot:851-876 | after each sample the lists hold the table of `Stream`, and the rows plotted are, in order and one each, those of the computed entries of the plot signal whose shown time passes: the entry's value, and its sample's time less the first one if times are relative |
| SignalEngine.SignalProcessor.CatchUpAll | scripts/tests/sampler-plot:880-888 | the catch-up loop terminates with the table of `CatchUp` |
| SignalEngine.SignalProcessor.Run | scripts/tests/sampler-plot:844-888 | a whole stream: final table, nothing delayed, and the rows plotted are in order exactly those of the entries computed before the catch-up whose shown time passes, with their values and times |
| MatchBuffer.BestIsLongest | scripts/tests/sampler-plot:53-56 | a match is reported exactly when the lines since the last reset end in a full pattern, the longest, then the lowest index |
| MatchBuffer.DeepestBound | scripts/tests/sampler-plot:43-50 | a longer match after a line would have been a longer match before it, so backtracking from the old depth misses none |
| MatchBuffer.MMB.Put | scripts/tests/sampler-plot:36-51 | every depth is the largest k such that the last k lines since the reset match the first k regexps |
| MatchBuffer.MMB.Get | scripts/tests/sampler-plot:52-79 | what is yielded and kept: a full match is tagged, the buffer keeps exactly the largest depth, a flush empties it |
| MatchBuffer.MMBWithTimeout.Put | scripts/tests/sampler-plot:143-149 | the callback has received what the naive matcher over all lines reports, and the lines since then that left the buffer |
| MatchBuffer.MMBWithTimeout.InternalFlush | scripts/tests/sampler-plot:154-156 | after the flush made by the timer the callback has received exactly what the naive matcher reports |
| MatchBuffer.SearchConserves | scripts/tests/sampler-plot:34-79 | the naive matcher loses and repeats no line |
| MatchBuffer.DeliveredConserves | scripts/tests/sampler-plot:34-79 | the lines yielded followed by the buffer are exactly the lines put, in order |
| MatchBuffer.PutTags | scripts/tests/sampler-plot:62-73 | on a match the lines before it are reported plain and its own lines tagged with their places in the pattern; without one nothing is reported |
| MatchBuffer.TagsMatch | scripts/tests/sampler-plot:69-72 | a line tagged as line n of pattern i matches regexp n of pattern i |
| SampleText.Tokenize | scripts/tests/sampler-plot:373-398 | the loop yields the tokens of the character by character automaton |
| SampleText.Parse | scripts/tests/sampler-plot:401-413 | the stack loop gives the nested list; it ends with an index error exactly if some tokens from the start close more lists than they open, and else with a mismatch exactly if the braces do not add up |
| SampleText.StripTrims | scripts/tests/sampler-plot:410 | stripping takes away the outer blanks and nothing else |
| SampleLine.BlanksDropped | scripts/tests/sampler-plot:401-413 | the line `1.5 ;<tab>2.5<return>` reads as the two numbers' texts |
| SampleText.FoldErrors | scripts/tests/sampler-plot:401-413 | the same for any stack of unfinished lists |
| SampleText.ParsePrinted | scripts/tests/sampler-plot:373-413 | parsing a printed nested list of any depth and width gives it back up to outer blanks and lists of one empty atom |
| SampleText.RoundTrip | scripts/tests/sampler-plot:373-413 | parsing undoes printing exactly for the lists whose atoms have no outer blanks and in which no list is one empty atom |
| SampleLine.Sampler.CollectAndPrint | lib/libsampler/master_tasks.c:103-165 | prints one cell for every sub-signal by its update state and fall-back, clears the update marks, aborts on repeating a string |
| SampleLine.Sampler.CertifiedRun | lib/libsampler/master_tasks.c:177-208 | a run is printed if no file is monitored or a monitored sub-signal has news |
| SampleLine.Sampler.PrintDiag | lib/libsampler/master_tasks.c:228-271 | the diagnostics columns in their order |
| SampleLine.Sampler.HarvestSample | lib/libsampler/master_tasks.c:274-332 | the printed line, the new diagnostics and time stamps; nothing changes in a run that is not certified |
| SampleLine.SecondsRead | lib/libsampler/master_tasks.c:211-223 | a printed time is a sign exactly if it is negative, the seconds without zeros in front, a point and six digits, which read as the seconds and the microseconds |
| SampleLine.DiagColumns | lib/libsampler/master_tasks.c:242-263 | every diagnostics column shows its own quantity |
| SampleLine.SubNameIs | lib/libsampler/runengine.c:98-137 | a sub-signal is named by its signal and the name in its file, both numbered if there are several |
| SampleLine.LineReadsBack | lib/libsampler/master_tasks.c:313-325 | a sample line parses into the time, one diagnostics group and one atom for every sub-signal |
| SampleLine.LegendReadsBack | lib/libsampler/runengine.c:92-143 | the legend line parses into the two time names and the name of every column |
| SampleLine.ColumnsAgree | lib/libsampler/runengine.c:92-143 | sample and legend lines have the same number of items exactly when every signal has a sub-signal, and then every cell is under its own name |
| SampleLine.ColumnsShift | lib/libsampler/parse_setup.c:307-319 | with the sub-index field `,` a signal has a name in the legend and no cell, so the next signal's cell reads back under its name |
| FieldCutters.FieldsAreAll | lib/libsampler/parsers.c:46-87 | the fields of the left cutter are exactly the maximal runs without delimiter |
| FieldCutters.FieldsInOrder | lib/libsampler/parsers.c:46-87 | they are in order and apart |
| FieldCutters.CutIs | lib/libsampler/parsers.c:52-57 | a line is cut after its first carriage return or line feed |
| FieldCutters.CutExec | lib/libsampler/parsers.c:46-87 | on any line, cut after its first line-end character: the entries hold the fields, success exactly if they fit, entry 0 spans them all, the rest is untouched |
| FieldCutters.RCutExec | lib/libsampler/parsers.c:93-134 | on any line the reverse cutter's entries and return code, with what the inverted last test leaves out or adds; it writes past the array exactly if the closed fields fill it |
| FieldCutters.OpenIfLeadsIn | lib/libsampler/parsers.c:99-126 | the leftmost field is left open exactly if the first character that is not a line end is not the delimiter |
| FieldCutters.OpenOnPlainLine | lib/libsampler/parsers.c:99-126 | without line-end characters: exactly if the line is not empty and does not begin with the delimiter |
| FieldCutters.Mirror | lib/libsampler/parsers.c:93-134 | without line-end characters field j from the right is field m+1-j from the left |
| FieldCutters.StoredMirrorFails | lib/libsampler/parsers.c:123-131 | on the line `a b` an unset start of 7 stays in the entry that should be `a` |
| FieldCutters.StoredMirror | lib/libsampler/parsers.c:46-134 | what the two programs store on such a line: entry j of one is entry m+1-j of the other for j below m, and for j = m if and only if the line begins with the delimiter or the start left unset was 0 before |
| SubIndex.CountAndErase | lib/libsampler/parse_setup.c:307-317 | the first pass erases every separator in place, changes nothing else and counts the entries |
| SubIndex.Store | lib/libsampler/parse_setup.c:363-383 | the second pass fills exactly the slots counted, with the kind and index of every entry |
| SubIndex.ParseSubIndexes | lib/libsampler/parse_setup.c:243-383 | both passes together, with the empty field and the single `$` |
| SubIndex.ParsePrinted | lib/libsampler/parse_setup.c:307-383 | any printed list of entries is recovered, whatever the separator |
| SubIndex.NoSubSignals | lib/libsampler/parse_setup.c:307-319 | a field has no sub-signal exactly if it is not empty and holds only separators |
| SubIndex.EntriesBounded | lib/libsampler/parse_setup.c:307-317 | a field has at most half as many entries as characters, rounded up |
| SubIndex.IdsDiffer | lib/libsampler/parse_setup.c:332-333 | the numbers of the sub-signals in a file are distinct because a definition line is shorter than 1024 characters |
| Decimal.PadReads | lib/libsampler/master_tasks.c:211-223 | padding gives the width and keeps the number |
| Decimal.AtoiReads | lib/libsampler/parse_setup.c:372-377 | reading a number where it is printed gives the number |
| Merger.ConverterInterpolates | scripts/tests/sampler_merger.py:77-98 | the converter goes through both points |
| Merger.ConverterKeepsOrder | scripts/tests/sampler_merger.py:68-98 | for x0 < x1 it keeps the order of times if and only if y0 < y1 |
| Merger.ColumnsAre | scripts/tests/sampler_merger.py:152-169 | the columns of a source are its renamed columns and their copies that are kept, and no others |
| Merger.LayoutColumnsAre | scripts/tests/sampler_merger.py:152-169 | the same by the header and the options: renaming, copies, and what is kept or deleted |
| Merger.ColumnsInOrder | scripts/tests/sampler_merger.py:162-167 | they are in the order of the file |
| Merger.LayoutStops | scripts/tests/sampler_merger.py:170-176 | the header stops the program exactly if the clock column or an extra time that is named is not among the columns |
| Merger.LayoutClock | scripts/tests/sampler_merger.py:170-173 | the clock is the first column of its name, or else the first cell |
| Merger.AcceptIs | scripts/tests/sampler_merger.py:177-189 | a line is a row exactly if it has the header's width and a clock cell that is neither empty nor "NO_SIG"; cell k is the conversion of its own column's cell, and the clock column shows the converted time |
| Merger.AcceptedShow | scripts/tests/sampler_merger.py:136-189 | the rows of a file are those of its lines that are rows, in order |
| Merger.Source.AdvanceLine | scripts/tests/sampler_merger.py:140-199 | one line: the header sets the columns; any other line is skipped or gives its row, cell by cell as `Merger.AcceptIs` says; a header may leave no column at all; a clock column or extra time that is not among the columns stops the program |
| Merger.Source.Advance | scripts/tests/sampler_merger.py:136-139 | reads on to the next accepted row, skipping no accepted one |
| Merger.Merger.MinTime | scripts/tests/sampler_merger.py:246-250 | the least time at the head of a source |
| Merger.Merger.AdvanceHeader | scripts/tests/sampler_merger.py:238-243 | the header line joins all headers; a missing or empty one closes the merger |
| Merger.Merger.AdvanceRow | scripts/tests/sampler_merger.py:244-257 | one merged row: the rows of the sources that are due, "NO_SIG" for the others; the sources due move on |
| Merger.Merger.MergeAll | scripts/tests/sampler_merger.py:262-279 | everything the merger yields is the header and the merge of the accepted rows, and it ends |
| Merger.MergeFiles | scripts/tests/sampler_merger.py:468-484 | from options and files to merged lines: nothing if a header is missing or empty or there is no source; else, projected on any source, the lines are exactly the rows of its file, in order, cell by cell |
| Merger.ProjectionUndoesMerge | scripts/tests/sampler_merger.py:234-257 | keeping the lines a source contributed to and cutting out its columns gives back exactly its accepted rows, in order |
| Merger.AcceptedIsGood | scripts/tests/sampler_merger.py:175-189 | accepted rows have all columns and a time in the clock column, so contributions can be told from filled columns |
| Merger.MergedTimesIncrease | scripts/tests/sampler_merger.py:244-257 | sources with strictly increasing times merge to strictly increasing times |
| Merger.MergedTimesAreAll | scripts/tests/sampler_merger.py:244-257 | the merged times are the times of the sources and no others, whatever their order |

## Left out

- LockStep.KeepsInv: a run with deaths keeps the invariant only if dying workers are prompt; StrayTokens gives the exact condition for safety.
- Lock-step details: the exit handler's `ndied++` is one atomic step; the queue handle passed as an address at lib/libsampler/workers.c:179 is taken as intended, so that the death message arrives; thread priorities, the abort for the ALWAYS bit and workers that handle several sub-signals in one thread are not modelled.
- The values of workers are last-value cells; other fall-backs for signals without an update are in SampleLine only.
- Log follower: partial last lines, opening, renaming and vanishing files, and the sub-threads of a signal other than its first, which post no events and only move their own position. The value taken from a line is the line itself; extracting it by the second regular expression, and the abort when that fails, are not modelled. The thread set-up in lib/libsampler/runengine.c:193 currently replaces this follower by another function.
- LogEvents.NothingIsLost: a change of a file is taken to be followed at some later time by an event; reading the notifications is not modelled.
- Signals.StreamRight: sufficient conditions on all the formulas of a program at once (blind to the raw value, or reading only the past); Signals.StreamExplained says what holds without them.
- RawValues.RightExactly: exact for one formula whose reads do not depend on values and are of times and of signals without reads; a formula that reads its own entries, such as an accumulator, or entries of derived signals is covered by Signals.StreamRight in one direction, because which raw values can meet there depends on the other formulas.
- SignalEngine.SignalProcessor.Feed: one time column, so that both clocks tick alike, with strictly increasing times of at least 0.5; with other times the window can drop entries.
- Signal formulas are total functions over answers: Python exceptions other than the evaluator's own, slices with an open end or a step, and debugging output are not modelled; a division by a zero time step is a formula that returns the interpolation mark.
- Plotting: pairing values with curve shifts and reporting gaps.
- Match buffer: regular expressions are predicates on lines, a get yields its lines at once instead of lazily, and the timer that decides when to flush is any flush at any time. Empty patterns and an empty list of patterns are excluded, as the program fails on them with an index or value error.
- SampleText.ParsePrinted: atoms with `;`, `{` or `}` in them, which printing does not quote.
- Sample line: values read through a pipe, the other plot mode, fixed buffer sizes and machine integers.
- FieldCutters.RCutExec: a write past the array is a result of its own; what it overwrites is not modelled.
- SubIndex.Store: numbers too large for a machine integer.
- Merger: a line is a sequence of cells, so quoting is not modelled; conversions of cells and the textual form of a time are arbitrary functions, the latter never "NO_SIG"; times are reals. A header without the clock column named (index error) or without an extra time named (key error), and a row with a time when all columns are deleted (index error), are excluded, as the program stops there. The list of kept columns that sources share by default is not shared.
- Times and time conversion are real numbers: rounding is not modelled.
- The asynchronous pipe readers, daemon mode, the editor, the writers and the option parsers: operating-system calls or easy members.
