# tool-wizard, modelled in Dafny

tool-wizard is a G-code post-processor for multi-tool 3D printers. It reads a
G-code file into a list of command records, derives "facts" for every record in
six passes, inserts heater and fan commands around some of the records, and
writes the file back. This project models everything between reading and
writing the file:

- the line parser (the `Command` constructor) and the serialiser
  (`Command.output`) — module `GCode`, with the character-level helpers in
  `Text`;
- the propagation driver `propagate`, which visits the records front to back or
  back to front and hands each pass the facts of the record visited just
  before — module `Propagation`;
- five of the passes as functions of (record, previous facts) — module
  `Passes`: position and feed, time estimate, active tool, next use of each
  tool (backward), and fan speed with the fan-off/fan-restore bracketing of
  tool changes;
- the preheat pass, a per-tool state machine over the set of heating tools
  that inserts `M104` lines — module `Preheat`;
- the script's pass order — module `Pipeline`.

The records live in an `array<Command>` that the driver updates slot by slot.
The command record is a `datatype`, so each pass writes a new record value into
the slot. The script copies a record's sets and maps before updating them, so
no two records share them, and value semantics models exactly that. The
driver is proved against a specification function:
`Propagated(s, step, reverse)` folds the pass over the records in visiting
order. For each of the five passes modelled as functions, a lemma describes
the facts the whole pass leaves on every record in terms of the original
records alone. Examples: the last move's `X`; the time of the first later tool
change that selects a tool; the sum of the move durations up to a record; the
last `M106`/`M107` speed. For the preheat pass,
`Preheat.HeatingAt` computes each record's heating set from the records as they
were before the pass, and `Preheat.PreheatHeating` proves the pass leaves
exactly that set.

The preheat pass iterates over a dictionary and a set, so the order of the
heater lines it inserts after one record follows Python's dictionary insertion
order and set iteration order, which the model leaves open. That pass is
modelled imperatively, with the tool picked by `:|`. Its contract is
relational: the new heating set is a function of the inherited set and the
record's facts. The inserted lines name pairwise distinct tools, exactly those
whose state changes, each with the right temperature. Because of this, the
whole script (`Pipeline.Process`) returns the records after the preheat pass as
a ghost witness, and the fan pass is a function of that witness.

Numbers are exact reals: tool-wizard's `float` and `int` arguments are decoded
from the decimal text exactly. The square root, and Python's rendering of a
float into text, are parameters.

## Model

| member | source | states |
|---|---|---|
| Text.RStrip | tool-wizard.py:17 | the result is a prefix of the line, ends in a non-whitespace character, and only whitespace was removed |
| Text.TrimComment | tool-wizard.py:26 | the result is the text before the first `;`: a prefix of the line with no `;`, cut exactly at a `;` |
| Text.Words | tool-wizard.py:26 | `split()` yields non-empty words that hold no whitespace |
| Text.WordsOfWord | tool-wizard.py:26 | a non-empty run of non-whitespace characters splits into itself alone |
| Text.WordsSplit | tool-wizard.py:26 | a whitespace character separates words: the words of `a + ch + b` are those of `a` followed by those of `b`; with the empty case and `WordsOfWord` this fixes `split()` on every string |
| GCode.IntRoundTrip | tool-wizard.py:37 | `int()` accepts what `str()` writes for an int and reads back the same int |
| GCode.FloatOfInt | tool-wizard.py:37 | `float()` accepts integer text and gives the value `int()` gives it |
| GCode.FloatDecimal | tool-wizard.py:37 | `float()` of `d.e` is exact: the digits of `d` and `e` read as one integer, divided by ten to the number of digits of `e` |
| GCode.ArgsLetters | tool-wizard.py:35-37 | a letter has an argument exactly when some word of the line starts with it, the first word included |
| GCode.ArgsLast | tool-wizard.py:35-37 | a letter's argument is the value of the last word carrying it (a repeated letter keeps the last value) |
| GCode.ParseWords | tool-wizard.py:24-40 | no command and no arguments when the line has no words or some word fails `[A-Z][0-9.+-]*`; otherwise the command is the first word and the arguments are every word's value stored under its letter, left to right |
| GCode.NewCommand | tool-wizard.py:16-40 | the record keeps the right-stripped text, has no facts and no inserted lines; its command is the first word of the comment-free text unless a word fails to parse; its letters and values are those of the words (last one wins); a command's own letter is among its arguments |
| GCode.LineWordsRead | tool-wizard.py:145-168 | the words of each inserted line (`M104 T<t> S<temp>`, `M104 T<t> S0`, `M106 S0`, `M106 S<speed>`) match the word pattern, convert, and store the line's tool, temperature or speed under `T` and `S` |
| GCode.TaggedReads | tool-wizard.py:43-47 | an inserted line as written, tag included, reads back through the parser as `M104` or `M106` with exactly the line's arguments, when the numbers are written as decimal text |
| GCode.WriteAll | tool-wizard.py:43-47 | each inserted line is written, in order, one output line per inserted line |
| GCode.Output | tool-wizard.py:42-47 | `len(magic_pre) + 1 + len(magic_post)` lines: the pre-lines tagged ` ; inserted by tool-wizard`, the unchanged text, then the post-lines tagged |
| Propagation.Propagate | tool-wizard.py:73-80 | after the driver, the array holds the pass folded over the records in document or reversed order |
| Propagation.Visit | tool-wizard.py:78-80 | one iteration: the pass is applied to the next record in visiting order, with the facts of the record visited last; the other records are untouched |
| Propagation.PropagatedAt | tool-wizard.py:73-80 | each record is the pass applied exactly once to it and to the facts of its already-visited neighbour (the one before it going forward, after it going backward), the first record visited getting the empty facts |
| Propagation.ForwardAt | tool-wizard.py:76-80 | the m-th record visited is the pass applied to it and to the facts of the (m-1)-th, or to the empty facts for the first |
| Propagation.InOrderInvolution | tool-wizard.py:75 | visiting order reversed twice is document order, so a backward pass's results land back in document order |
| Passes.GcodeState | tool-wizard.py:85-90 | each of X, Y, F is the argument of a G0-G3 that has it, otherwise the previous record's fact; nothing else changes |
| Passes.MotionAt | tool-wizard.py:85-90 | after the pass, record i's X, Y or F is its own argument on a move that has it, else record i-1's (none for the first record) |
| Passes.LastMotion | tool-wizard.py:85-90 | after the pass, record i's X, Y or F is `None` exactly when no move at or before i has that letter, and otherwise the argument of the last such move |
| Passes.TimeEstimate | tool-wizard.py:93-102 | the previous time, plus distance / F * 60 when both previous coordinates are known and the distance is positive; never less than the previous time when the feed rate is positive |
| Passes.TimeRuns | tool-wizard.py:93-102 | the pass runs on every record when every move from a located record to a different point has a known non-zero feed rate |
| Passes.TimeAt | tool-wizard.py:93-102 | after the pass, each record's time is the estimate from the record before it as already updated |
| Passes.TimeStarts | tool-wizard.py:94 | the first record's time is 0.0 |
| Passes.TimeIs | tool-wizard.py:93-102 | after the pass, a record's time is the sum, over the moves up to it, of distance / F * 60 for each move of positive length from a known position, 0 for the first record |
| Passes.TimeNonDecreasing | tool-wizard.py:93-102 | when every move of positive length from a known position has a positive feed rate, time never decreases along the file |
| Passes.ActiveTool | tool-wizard.py:105-108 | a command starting with `T` sets the active tool to its `T` argument; every other record inherits it |
| Passes.LastToolChange | tool-wizard.py:105-108 | after the pass, the active tool is `None` exactly before the first tool change, and otherwise the tool of the last tool change at or before the record |
| Passes.NextNeeded | tool-wizard.py:111-119 | the next record's maps, with this record's tool change (its time) or `M104`/`M109` (its `S`) entered for its tool; nothing else changes |
| Passes.NeededAt | tool-wizard.py:111-119 | after the backward pass, each record's maps are those of the record after it (empty for the last) with its own entry added |
| Passes.FirstSelect | tool-wizard.py:111-117 | after the backward pass, tool t has a next-use time at record i exactly when a tool change at or after i selects it, and the time is that of the first one |
| Passes.FirstHeat | tool-wizard.py:111-119 | tool t has a next temperature at record i exactly when an `M104`/`M109` at or after i names it, and it is the `S` of the first one |
| Passes.Fan | tool-wizard.py:159-170 | `M106` sets the speed to `S`, `M107` to 0, others inherit it; a tool change gets `M106 S0` before it and `M106 S<inherited speed>` after it |
| Passes.FanSpeedAt | tool-wizard.py:159-170 | after the pass, a record's speed is its own setting or the previous record's, 0 for the first |
| Passes.FanBrackets | tool-wizard.py:166-168 | after the pass, a tool change has exactly one more line before (fan off) and one more after (restore to the speed in force before it), and keeps that speed; other records get no line |
| Passes.FanOffAtStart | tool-wizard.py:160 | the speed is 0 up to the first `M106`/`M107` |
| Passes.LastFanSetting | tool-wizard.py:159-170 | the speed at record i is that set by the last `M106`/`M107` at or before i |
| Preheat.Heating | tool-wizard.py:128-156 | after the step, the active tool is heating as it was inherited, and every other tool is heating exactly when it is needed within 9 time units |
| Preheat.ChangeLine | tool-wizard.py:143-156 | the line for a change names the changed tool, and it is the `S0` line exactly when the tool is not needed again |
| Preheat.ChangeLineMeans | tool-wizard.py:143-156 | a tool that starts heating gets its next temperature, a tool that stops heating but is still needed gets that temperature less 65, and a tool never needed again is turned off |
| Preheat.SettleTool | tool-wizard.py:136-149 | a non-active needed tool whose state disagrees with the horizon flips, and the flip is announced with its next temperature (start) or that less 65 (idle) |
| Preheat.SettleNeeded | tool-wizard.py:135-149 | after the first loop, every needed tool is settled and each change announced once |
| Preheat.TurnOffUnneeded | tool-wizard.py:151-156 | after the second loop, the heating set is the settled one and the lines announce exactly the tools that changed, tools never needed again with `S0` |
| Preheat.PreheatStep | tool-wizard.py:122-156 | nothing changes while the active tool is unknown; otherwise the heating set starts from the previous record's (or `{active tool}`), becomes the settled set, and one line per changed tool is appended after the existing post-lines |
| Preheat.DistinctCount | tool-wizard.py:143-156 | heater lines about distinct tools name as many tools as there are lines |
| Preheat.ChangedFlips | tool-wizard.py:143-156 | a tool is announced exactly when it is in one of the inherited and new heating sets but not the other |
| Preheat.AnnouncedFlips | tool-wizard.py:143-156 | the announced tools are the symmetric difference of the inherited and new heating sets, and the number of lines is its size |
| Preheat.QuietWhenSettled | tool-wizard.py:143-156 | a step whose heating set does not change inserts nothing |
| Preheat.ActiveUntouched | tool-wizard.py:128-138 | the active tool keeps its heating state and is never named by a heater line; on the first record with a known tool it is heating |
| Preheat.HeatingNeeded | tool-wizard.py:140-156 | after the step, every heating tool other than the active one is needed within the horizon |
| Preheat.PropagatePreheat | tool-wizard.py:180 | every record is the preheat step applied to it and to the facts of the record before it as already stepped |
| Preheat.PreheatHeating | tool-wizard.py:122-156 | after the pass, every record's heating set is the one computed from the records before the pass: unchanged while the tool is unknown, otherwise settled from the set of the record before it |
| Preheat.HeatingKnown | tool-wizard.py:123-133 | on records that had no heating set, a record has one after the pass exactly when its active tool is known |
| Preheat.HeatingChanges | tool-wizard.py:128-156 | along the file, the heater lines inserted after a record name exactly the tools that start or stop heating between the record before it and this one |
| Pipeline.StatedLines | tool-wizard.py:85-90 | the position pass changes only facts |
| Pipeline.TimedLines | tool-wizard.py:93-102 | the first two passes change only facts |
| Pipeline.TooledLines | tool-wizard.py:105-108 | the first three passes change only facts |
| Pipeline.PlannedLines | tool-wizard.py:111-119 | the first four passes change only facts |
| Pipeline.Plan | tool-wizard.py:176-179 | the first four passes, in the script's order and directions, each on what the previous one left |
| Pipeline.Process | tool-wizard.py:176-181 | the six passes in order: the preheat pass steps every record of the planned records, and the fan pass runs on its result |
| Pipeline.HeatedLine | tool-wizard.py:122-156 | after the preheat pass, every record keeps its parsed line, has nothing before it and only heater lines after it |
| Pipeline.FannedLine | tool-wizard.py:159-170 | the fan pass keeps each line and adds its bracketing lines after the ones already there |
| Pipeline.InsertedLines | tool-wizard.py:176-181 | in the output, a tool change has only the fan-off line before it; after any line come the preheat heater lines and then, for a tool change, the fan restore as the very last line |
| Preheat.HeatingSettled | tool-wizard.py:128-149 | a second step over facts with the same time and the same needs for every tool but the active one leaves the heating set as the first step made it |
| Pipeline.StillTime | tool-wizard.py:93-102 | a record that is not a move keeps the time of the record before it, when the square root of 0 is 0 |
| Pipeline.StillTool | tool-wizard.py:105-108 | a record that is not a tool change keeps the active tool of the record before it |
| Pipeline.NeedAway | tool-wizard.py:111-119 | a tool other than the active tool of record i-1 is needed at i-1 exactly when it is needed at i, and at the same time |
| Pipeline.QuietLine | tool-wizard.py:85-156 | after the preheat pass, a record that neither moves nor changes tool keeps the active tool, the time and the heating set of the record before it, and gets no heater line |
| Pipeline.BlankLineQuiet | tool-wizard.py:16-156 | a blank, comment-only or malformed line (no command) changes neither the active tool, the time nor the heating set, and gets no heater line |

## Left out

- Reading and writing the file (`parse_file`, `write_file`, `sys.argv`) and `debug_dump` are I/O with no logic. `GCode.Output` returns the lines instead of writing them.
- Floating point: times, coordinates and temperatures are exact reals, and binary64 rounding is not modelled. `(a - b)**2.0` is written as a product.
- The square root is a parameter `sqrt: real -> real`. Only `Pipeline.StillTime`, `Pipeline.QuietLine` and `Pipeline.BlankLineQuiet` assume anything about it: that `sqrt(0.0) == 0.0`, so that a record that does not move adds no time. Every other member holds for any `sqrt`.
- Python's text rendering of floats in the inserted lines is a parameter `fmt`. So is the difference between `M106 S0` and `M106 S0.0`: the script holds the fan speed as the int `0` by default and after an `M107`, and writes `M106 S0` for it, where the model holds the real `0.0` and writes `"M106 S" + fmt(0.0)`.
- The regular expressions are modelled as predicates on one line. `;.*$` cuts at the first `;` only in text with no line break before its end. `parse_file` reads the file one line at a time, so `GCode.NewCommand` requires that a line break can only end `line`.
- GCode.TaggedReads and GCode.LineWordsRead: the read-back holds only when `fmt` writes each number as plain decimal text that `float()` reads back exactly. Python's `str()` of a float can use exponent notation or round, and that is not modelled.
- Passes.TimeEstimate: the `'F' in command.facts` test is not modelled. The position pass always stores `F`, so the test is always true. A move of positive length from a known position with a missing or zero feed rate raises an exception in the script; this is excluded by `TimeDefined`.
- Crash paths are preconditions, not modelled exceptions. `Convertible` excludes `int()`/`float()` failures. `ToolDefined`, `NeedDefined` and `FanDefined` exclude a missing `T`, `S` or `S`. `TimeDefined` excludes division by a missing or zero feed on a move of positive length from a known position. `PreheatDefined` excludes a missing next temperature for a needed tool.
- Preheat.PreheatStep: the order of the heater lines inserted after one record follows Python's dictionary insertion order and set iteration order. The model leaves it open; the lines, their count and their contents are modelled.
- Pipeline.Process: the records must be fresh from the parser (no facts, no inserted lines), as they are in the script. The result of the preheat pass is returned as a ghost witness rather than computed by a function, because of the order left open above.
- The tool number is the `T` argument as a real, taken with `Floor`. The parser reads `T` with `int()`, so the value is an integer.

