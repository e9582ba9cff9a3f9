# Tower of Hanoi: the three generators, the page and the replay

This project models the core of a Tower of Hanoi teaching page and its two
Java programs. It covers:

- **The correct generator.** `generateHanoiMoves` in `script.js` pushes the
  moves into a shared list. `simulateCode2` prints the same moves and numbers
  them with a shared step counter. `solveHanoi` in the optimised Java program
  prints them and counts them in a static `int`.
- **The faulty generator.** `towerOfHanoi` in the original Java program and
  `simulateCode1` on the page keep the correct recursive calls. For every
  disk n >= 2 they print the helper tower as the target.
- **The page.** The output panel, the input check `getUserN`, the three towers
  with the drawn height (`bottom`) and offset (`left`) of every disk
  (`resetTowers`, `moveDisk`), and the timers that `visualDemo` arms to replay
  the solution.
- **The Java `main` of the optimised program.** Its guard on `n`, the reset of
  `steps`, and the comparison with `calculateExpectedMoves`.

Modules:

- `Hanoi` holds the shared recursion:
  - `Solve`, the correct move list;
  - `Calls`, the calls that print, each with its three labels.
- `Solution1` is the faulty printer. It is a pure function, related to `Calls`.
- `Solution2` is the optimised Java program. `Program` is a class with the
  static `steps` counter (a Java `int`, wrap-around written out) and the printed
  lines. The pure `CalculateExpectedMoves` is modelled through a `real`
  power, with the double's rounding written out where it matters, and Java's
  saturating `(int)` cast.
- `Pegs` abstracts the towers as three stacks of disk numbers. It shows two
  things:
  - the correct list is legal and solves the puzzle;
  - the faulty list breaks the rules at its second move.
- `Text` renders decimal numbers and the line "Move disk k from X to Y", and
  reads both back.
- `Input` models `parseInt` and the range check of `getUserN`.
- `Timing` computes the replay schedule exactly.
- `Script` holds the page:
  - the `Page` class, with its output panel, towers and disk styles;
  - `MoveList` and `StepCounter`;
  - the simulations and the replay of the timers.

Two properties rest on the Java `int` counter:

- the count 2^n - 1 that `main` compares is reached exactly when the count
  fits an `int`;
- the verdict is PASSED exactly for n <= 31. From n = 32 on, `steps` has
  wrapped to -1 while the cast saturates at 2147483647.

The page methods use the corrected input check (see Findings).

In two places the code behaves differently from what it announces, and in
one it has a failure the model excludes. The model follows the code:

- `getUserN` lets NaN through, although the range message at script.js:7
  asks for a value between 1 and 8 (see Findings).
- For n >= 32 the optimised program's formula check at
  src/solution2_java.java:97 prints FAILED, although its header at
  src/solution2_java.java:18 promises 2^n - 1 moves.
- `moveDisk` throws a TypeError when `tower-<from>` does not exist
  (script.js:182). When only `tower-<to>` is missing, an absent disk makes it
  return silently (script.js:185); a present one is removed (script.js:188)
  before the count of the missing tower's children throws (script.js:191).
  The model requires the labels a, b or c, which are all visualDemo passes.

## Model

| member | source | states |
|---|---|---|
| Hanoi.Solve | src/solution2_java.java:33-50 | the correct list for n disks has 2^n - 1 moves, each of a disk in 1..n |
| Hanoi.SolveFollowsCalls | src/solution2_java.java:42-49 | the correct list reports, for every printing call, that call's destination |
| Hanoi.CallsKeepLabelsDistinct | src/solution1_java.java:34-41 | each recursive call permutes its three labels, so distinct labels stay distinct in every call |
| Hanoi.SolveStaysOnPegs | script.js:99-120 | every move goes between two of the three towers given to the generator |
| Hanoi.DiskCount | script.js:99-120 | disk k is moved exactly 2^(n-k) times for 1 <= k <= n and never otherwise |
| Hanoi.LargestMovesOnce | src/solution2_java.java:44-46 | disk n moves exactly once, from source to destination, at index 2^(n-1) - 1 |
| Hanoi.SolveHalves | script.js:110-117 | the moves before disk n's move solve n-1 disks source to helper; the moves after it solve n-1 disks helper to destination |
| Solution1.TowerOfHanoi | src/solution1_java.java:26-42 | the faulty printer prints 2^n - 1 lines, each of a disk in 1..n |
| Solution1.FollowsCalls | src/solution1_java.java:26-42 | the faulty printer walks the same calls as the correct generator: destination for disk 1, helper for the others |
| Solution1.SameShape | src/solution1_java.java:34-41 | same length and same (disk, from) order as the correct list; disk-1 lines have the right target; a disk k >= 2 line names its call's helper |
| Solution1.Mislabelled | src/solution1_java.java:37-38 | with distinct labels a line has the wrong target exactly when its disk is >= 2 |
| Solution1.MiddleLineReportsHelper | src/solution1_java.java:36-38 | the top-level disk-n line, at index 2^(n-1) - 1, reports src to helper |
| Solution1.FirstTwoLines | src/solution1_java.java:28-38 | for n >= 2 the first two lines move disk 1 and then disk 2 from the source onto the same tower |
| Pegs.Tower | script.js:164-174 | resetTowers stacks disks n, n-1, ..., 1 from the bottom up |
| Pegs.FirstIndex | script.js:182-183 | the position of the first matching disk, or the length of the tower when none matches |
| Pegs.RemoveFirst | script.js:183-188 | removing a disk that is present takes out its first occurrence and keeps every other disk in its order; removing one that is absent changes nothing |
| Pegs.ApplyEffect | script.js:177-203 | moveDisk takes the found disk off the from-tower (the others keep their order) and puts it on top of the to-tower, also when the two are the same tower; it leaves the third tower alone and does nothing when the disk is absent |
| Pegs.RunSolve | script.js:99-120 | replaying the correct list for n disks on top of larger disks is legal and moves the n disks from source to destination, leaving everything else in place |
| Pegs.ReplaySolves | script.js:99-120 | replaying the correct list from the reset towers is legal at every move and ends with all disks on tower c |
| Pegs.FaultyReplayFails | src/solution1_java.java:26-42 | replaying the faulty list from the reset towers breaks the rules for every n >= 2 |
| Pegs.LegalKeepsStacked | script.js:177-203 | a legal move never puts a disk on a smaller one |
| Pegs.RunKeepsStacked | script.js:177-203 | legal play keeps every tower stacked largest first |
| Text.DecimalString | src/solution2_java.java:46 | the rendering of a number is digits only, with no leading zero |
| Text.DecimalRoundTrip | src/solution2_java.java:46 | reading back the decimal rendering gives the number |
| Text.CanonicalDecimal | src/solution2_java.java:46 | every numeral without a leading zero is the rendering of its value |
| Text.DescribeRoundTrip | src/solution2_java.java:37-46 | "Move disk k from X to Y" reads back as the move (k, X, Y) |
| Text.ParseIsExact | src/solution2_java.java:37-46 | only description lines read back, and each is the description of the move it gives |
| Input.ParseIntRoundTrip | script.js:5 | parseInt reads back every integer as string concatenation renders it |
| Input.TrimStartIsSuffix | script.js:5 | what parseInt skips is a prefix made of white space only; what is left is the rest of the text, empty or starting with a character that is not white space |
| Input.EmptyIsNaN | script.js:5 | parseInt of an empty field is NaN |
| Input.NaNGetsThrough | script.js:6-10 | an empty field passes the range test as NaN |
| Input.CorrectionOnlyRejectsNaN | script.js:6 | the corrected test differs from the written one only on NaN |
| Input.AcceptsRenderedCounts | script.js:5-10 | every count 1..8 typed as digits is accepted as itself |
| Solution2.WrapCongruent | src/solution2_java.java:23 | int wrap-around changes a value by a multiple of 2^32 and keeps every int unchanged |
| Solution2.WrapAdd | src/solution2_java.java:36 | wrapping after every increment is wrapping once at the end |
| Solution2.Inc | src/solution2_java.java:36 | steps++ adds one with Java int wrap-around |
| Solution2.AdvanceIsWrap | src/solution2_java.java:36-45 | k increments of the int counter add k with wrap-around |
| Solution2.CalculateExpectedMoves | src/solution2_java.java:58-60 | the result is the (int) cast of the double Math.pow(2, n) - 1, which is exact for -53 <= n <= 53, rounds to -1.0 for n <= -54, and for n >= 54 lies above the int range like the exact value, so the cast saturates both to 2147483647 |
| Solution2.ExpectedMatchesFormula | src/solution2_java.java:58-60 | for n >= 1 the formula gives 2^n - 1 exactly when n <= 31 |
| Solution2.NegativeExponent | src/solution2_java.java:58-60 | for -53 <= n <= 0 the cast of the double 2^n - 1 is 0; for n <= -54, where the double has rounded to -1.0, it is -1 |
| Solution2.WrappedCount | src/solution2_java.java:23-45 | from 32 disks on, 2^n - 1 increments wrap the counter to -1 |
| Solution2.Program.constructor | src/solution2_java.java:23 | the counter starts at 0 and nothing is printed |
| Solution2.Program.SolveHanoi | src/solution2_java.java:33-50 | solveHanoi advances steps by 2^n - 1 increments and prints the lines of the correct list in order |
| Solution2.Program.Run | src/solution2_java.java:65-97 | main rejects n <= 0 and changes nothing; otherwise it resets steps, prints the correct list from A to C and reports the count, the formula and the verdict; PASSED iff n <= 31; steps is 2^n - 1 for n <= 31 and -1 from 32 on |
| Solution2.PrintedLinesParse | src/solution2_java.java:37-46 | each printed line reads back as the move at the same index of the correct list |
| Timing.Delay | script.js:144 | the gap is max(500, 3000 / len): either 500 ms or exactly 3000 ms spread over the list, never less than either; it is 500 ms exactly from six moves on |
| Timing.ArmTimers | script.js:140-150 | the forEach and the closing setTimeout arm exactly the schedule: move i at (i+1) delays, the closing timer at (len+1) delays |
| Timing.ScheduleInOrder | script.js:140-150 | move timers carry the moves in order; their times rise strictly, one delay apart; the closing timer is last |
| Timing.ReplayDuration | script.js:144-150 | the first move shows after at least 500 ms; the closing line comes after more than 3000 ms |
| Timing.DelayForDisks | script.js:144 | for 1 to 8 disks the gap is 3000 ms, 1000 ms, then 500 ms from 3 disks on |
| Script.RecordsDescribeMoves | script.js:101-116 | each record performs its move, and its text reads back as that move with upper-case tower letters |
| Script.GenerateHanoiMoves | script.js:99-120 | pushes the records of the correct list onto the given list, in order, and returns that list |
| Script.SolutionRecords | script.js:135 | visualDemo's call on a fresh list yields the records of the correct list, 2^n - 1 of them |
| Script.Code1Simulation | script.js:26-40 | simulateCode1's lines show the faulty list; with the "should be" target they give the correct list; a line is flagged iff its move is wrong |
| Script.ResetIsPlaced | script.js:164-174 | after resetTowers every disk is drawn at 8 + 20 times its position |
| Script.Page.constructor | script.js:206-208 | the page starts with three disks on tower a, drawn in place |
| Script.Page.GetUserN | script.js:3-11 | returns the accepted count; on rejection adds the range message and changes nothing else |
| Script.Page.ClearOutput | script.js:13-15 | the panel holds only the cleared message |
| Script.Page.SimulateCode1 | script.js:26-40 | adds one line per printing call of the faulty solver, flags every disk n >= 2 line, and leaves the counter alone |
| Script.Page.SimulateCode2 | script.js:43-59 | adds the correct moves numbered consecutively from the counter's value; the counter grows by 2^n - 1 |
| Script.Page.ExecuteCode1 | script.js:61-77 | on rejection only the range message is added; otherwise the panel is cleared, then gets the faulty lines and the expected 2^n - 1 |
| Script.Page.Code1Callback | script.js:70-76 | the delayed part of executeCode1: the faulty lines, then the expected count |
| Script.Page.ExecuteCode2 | script.js:79-97 | on rejection only the range message is added; otherwise the panel is cleared, then gets the numbered correct moves, a total of 2^n - 1 and the formula value |
| Script.Page.Code2Callback | script.js:88-96 | the delayed part of executeCode2: numbered correct moves from 1, and the total printed is 2^n - 1 |
| Script.Page.ResetTowers | script.js:153-175 | tower a holds n..1 and the others are empty; disk i is drawn at 8 + 20(n - i) with offset -(10 + 10i) |
| Script.Page.MoveDisk | script.js:177-203 | performs moveDisk on the towers; the moved disk is drawn at 8 + 20 times the disks left on the target; no-op when the disk is absent |
| Script.Page.Fire | script.js:140-150 | a move timer shows "index+1. desc" and performs the move; the closing timer shows the closing line |
| Script.Page.VisualDemo | script.js:122-151 | on rejection only the range message; otherwise a cleared panel, 2^n - 1 moves announced, reset towers, and timers that are the schedule of the correct list from a to c |
| Script.Page.Demo | script.js:126-150 | the part of visualDemo after the input check: cleared panel, 2^n - 1 moves announced, towers reset for n disks, and the schedule of the correct list armed |
| Script.FireAllPerforms | script.js:140-150 | firing timers in order shows every record's numbered line, performs every record's move, and ends with the closing line |
| Script.FireSchedule | script.js:140-150 | firing visualDemo's schedule in time order shows the lines 1..len and performs the records' moves |
| Script.LegalKeepsPlaced | script.js:177-203 | a legal move keeps the towers free of shared disks and every disk drawn at the height of its position |
| Script.PerformFollowsRun | script.js:177-203 | performing a legal list with moveDisk reaches the towers the rules give, with every disk still drawn in place |
| Script.DemoPlaysSolution | script.js:122-151 | the demo's timers show "1." to "2^n - 1." and the closing line, end with all disks on tower c, and leave every disk drawn at its position |
| Script.DemoBoard | script.js:140-143 | performing the demo's records with moveDisk from the reset towers uses only towers a, b and c, ends with every disk on tower c, and leaves every disk drawn at its position |
| Script.SolveUpper | script.js:105-115 | solving with upper-case letters is solving and then writing the letters in upper case |
| Script.PageAgreesWithJava | script.js:99-120 | the demo's record texts are the lines solveHanoi(n, 'A', 'B', 'C') prints; simulateCode2 shows the same moves numbered 1, 2, ... |

## Left out

- The DOM. Element lookup, `innerHTML`, scrolling and CSS strings are left out. The page keeps only the panel's data lines, the towers as sequences, and each disk's `bottom` and `left` in pixels.
- Decorated and narrative output. HTML spans, emoji, headings and blank lines are not modelled. The panel records only lines that carry data (the `Line` datatype).
- The text of the faulty printers' lines is not modelled. `towerOfHanoi` and `simulateCode1` lines are modelled as moves.
- Actual `setTimeout` execution. Timers, the event loop and interleaving between overlapping runs are left out. The 500 ms callbacks of executeCode1/2 are applied at once. visualDemo returns the timers it arms, and their effect is modelled by `FireAll`.
- IEEE doubles. `Math.pow`, `3000 / moves.length` and the `(int)` cast are computed on exact reals, except that the rounding of `Math.pow(2, n) - 1` to -1.0 for n <= -54 is written out. JavaScript counters are unbounded integers. For n <= 8 and the Java powers these agree with the doubles.
- `Scanner` input, `System.out` as a stream, `currentTimeMillis`, the performance prints and the `main` of the original Java program. None of them is modelled.
- Text.Upper: only ASCII letters are mapped; the rest of Unicode case mapping is left out.
- Input.ParseInt: values beyond 2^53 are not rounded to the nearest double, and the result is never written in exponent notation.
- Pegs.FirstIndex: `className.includes("disk-k")` is modelled as equality of disk numbers. The two differ once disk 10 exists ("disk-10" contains "disk-1"), but the page stops at 8 disks.
- Timing.Delay: requires at least one move; JavaScript would give Infinity for an empty list, which visualDemo never produces.
- Script.Page.MoveDisk: requires labels a, b or c. A missing `tower-<from>` throws at script.js:182; with only `tower-<to>` missing, an absent disk returns at script.js:185 and a present one is removed (script.js:188) before script.js:191 throws. None of these paths is modelled.
- Script.GenerateHanoiMoves: requires n >= 1; the source recurses without end otherwise.
- Script.Page.GetUserN: returns the corrected count (see Findings). On an empty or non-numeric field the source returns NaN without showing the range message; the model rejects and adds the message.
- Script.Page.ExecuteCode1: on a NaN field the source clears the panel, prints its headings and then, in the timer, recurses in simulateCode1 until the stack overflows; the model adds the range message and leaves the panel otherwise as it was.
- Script.Page.ExecuteCode2: on a NaN field the source clears the panel, prints its headings and then, in the timer, recurses in simulateCode2 until the stack overflows; the model adds the range message and leaves the panel otherwise as it was.
- Script.Page.VisualDemo: on a NaN field the source clears the panel, empties all three towers (its loop adds no disk) and then overflows the stack in generateHanoiMoves, so no timer is armed; the model adds the range message and leaves panel and towers as they were.
- Script.Page.SimulateCode1: requires n >= 1; the source recurses without end otherwise.
- Script.Page.SimulateCode2: requires n >= 1; the source recurses without end otherwise.
- Solution2.Program.SolveHanoi: requires n >= 1; the source recurses until the stack overflows otherwise, and main never calls it with n <= 0.
- Solution2.Program.Run: stack depth is not modelled. For n beyond the JVM's recursion depth (tens of thousands of disks) solveHanoi throws StackOverflowError before printing a move, where the model prints the list and reports FAILED with steps -1; the claims for n >= 32 hold only while the recursion fits the stack.
- Solution1.TowerOfHanoi: requires n >= 1. For n <= 0 the source recurses until the stack overflows, and the original main passes its input to towerOfHanoi with no guard, so that case is reachable there; the model does not capture the overflow.
- Solution2.CalculateExpectedMoves: from n = 54 on the model keeps the exact 2^n - 1 where the double is rounded (and is Infinity from n = 1024 on). Both lie above the int range, where the cast gives 2147483647 either way.

## Findings

| source | as written | input that shows it | evidently intended | confidence | as-written member | corrected member |
|---|---|---|---|---|---|---|
| script.js:5-10 | `n < 1 \|\| n > 8` is false for NaN, so getUserN returns NaN instead of null | an empty field, or any text not starting with a number: parseInt gives NaN | reject everything that is not an integer in 1..8, as the range message says | high, not executed | Input.GetUserNAsWritten, Input.NaNGetsThrough | Input.CheckedN |

When NaN gets through, the simulations compare `NaN === 1` (false) and recurse without end. The page model uses `Input.CheckedN` throughout.
