/**
 * The page of script.js: the output panel, the three towers with the disk
 * elements drawn on them, the two code simulations, the move list of the
 * visual demonstration and the timers that replay it.
 */
module Script {
  import opened Wrappers
  import opened Hanoi
  import Text
  import Input
  import Solution1
  import opened Pegs
  import opened Timing
  import Solution2

  /** One entry of the move list: the disk, both tower labels and the text shown for it. */
  datatype MoveRecord = MoveRecord(disk: int, from: Label, to: Label, desc: string)

  /** The move a record performs on the towers. */
  function RecordMove(r: MoveRecord): (m: Move)
  {
    Move(r.disk, r.from, r.to)
  }

  /** The records pushed for a list of moves: the description names the towers in upper case. */
  function Records(ms: seq<Move>): (rs: seq<MoveRecord>)
    ensures |rs| == |ms|
  {
    seq(|ms|, i requires 0 <= i < |ms| =>
      MoveRecord(ms[i].disk, ms[i].from, ms[i].to, Text.Describe(ms[i].disk, Text.Upper(ms[i].from), Text.Upper(ms[i].to))))
  }

  lemma RecordsConcat(a: seq<Move>, m: Move, b: seq<Move>)
    ensures Records(a + [m] + b) == Records(a) + Records([m]) + Records(b)
  {
  }

  /**
   * Every record performs its move, and its text reads back as the same
   * move with the tower letters in upper case.
   */
  lemma RecordsDescribeMoves(ms: seq<Move>, i: int)
    requires 0 <= i < |ms| && ms[i].disk >= 0
    ensures RecordMove(Records(ms)[i]) == ms[i]
    ensures Text.ParseDescription(Records(ms)[i].desc) == Some(Move(ms[i].disk, Text.Upper(ms[i].from), Text.Upper(ms[i].to)))
  {
    Text.DescribeRoundTrip(ms[i].disk, Text.Upper(ms[i].from), Text.Upper(ms[i].to));
  }

  /** The list that generateHanoiMoves pushes onto. */
  class MoveList {
    var items: seq<MoveRecord>

    constructor ()
      ensures items == []
    {
      items := [];
    }
  }

  /**
   * generateHanoiMoves: pushes the record of every move of the correct
   * solution onto moves, in order, and returns the same list.
   */
  method GenerateHanoiMoves(n: int, source: Label, helper: Label, destination: Label, moves: MoveList) returns (r: MoveList)
    requires n >= 1
    modifies moves
    ensures r == moves
    ensures moves.items == old(moves.items) + Records(Solve(n, source, helper, destination))
    decreases n
  {
    if n == 1 {
      moves.items := moves.items + Records([Move(1, source, destination)]);
      return moves;
    }
    var _ := GenerateHanoiMoves(n - 1, source, destination, helper, moves);
    moves.items := moves.items + Records([Move(n, source, destination)]);
    var _ := GenerateHanoiMoves(n - 1, helper, source, destination, moves);
    RecordsAfterSolve(n, source, helper, destination, old(moves.items));
    return moves;
  }

  /** generateHanoiMoves(n, 'a', 'b', 'c') called with a fresh list, as visualDemo calls it. */
  method SolutionRecords(n: int) returns (items: seq<MoveRecord>)
    requires n >= 1
    ensures items == Records(Solve(n, 'a', 'b', 'c'))
    ensures |items| == Pow2(n) - 1
  {
    var list := new MoveList();
    var moves := GenerateHanoiMoves(n, 'a', 'b', 'c', list);
    items := moves.items;
  }

  /** The records pushed by the two recursive calls and the push between them. */
  lemma RecordsAfterSolve(n: int, source: Label, helper: Label, destination: Label, before: seq<MoveRecord>)
    requires n >= 2
    ensures before + Records(Solve(n - 1, source, destination, helper)) + Records([Move(n, source, destination)]) + Records(Solve(n - 1, helper, source, destination))
         == before + Records(Solve(n, source, helper, destination))
  {
    var left := Solve(n - 1, source, destination, helper);
    var right := Solve(n - 1, helper, source, destination);
    RecordsConcat(left, Move(n, source, destination), right);
    assert Solve(n, source, helper, destination) == left + [Move(n, source, destination)] + right;
  }

  /** The entries the page adds to its output panel that carry data (headings and blank lines are left out). */
  datatype Line =
    | RangeError                          // "Please enter a value between 1 and 8"
    | Cleared                             // what clearOutput leaves in the panel
    | Transfer(move: Move)                // simulateCode1, disk 1: "transfer disk 1 from X to Y"
    | Flagged(move: Move, shouldBe: Label) // simulateCode1, larger disks: "... ERROR: Should be Z!"
    | Counted(move: Move, step: int)      // simulateCode2: "Move disk k from X to Y, Step s"
    | ExpectedSteps(count: int)           // executeCode1: "Expected total steps"
    | TotalSteps(count: int)              // executeCode2: "Total steps"
    | Formula(n: int, value: int)         // executeCode2: "2^n - 1 = value"
    | Required(count: int, n: int)        // visualDemo: "Total moves required"
    | Numbered(index: int, desc: string)  // a replay timer: "index. desc"
    | PuzzleSolved(count: int)            // the closing timer

  /** The lines simulateCode1 adds for its printing calls: disk 1 goes to the call's target, a larger disk to its helper, flagged. */
  function Code1Lines(cs: seq<Call>): (ls: seq<Line>)
    ensures |ls| == |cs|
  {
    seq(|cs|, i requires 0 <= i < |cs| =>
      if cs[i].disk == 1 then Transfer(Move(1, cs[i].from, cs[i].to))
      else Flagged(Move(cs[i].disk, cs[i].from, cs[i].helper), cs[i].to))
  }

  lemma Code1LinesConcat(a: seq<Call>, c: Call, b: seq<Call>)
    ensures Code1Lines(a + [c] + b) == Code1Lines(a) + Code1Lines([c]) + Code1Lines(b)
  {
  }

  /** The move a line of simulateCode1 reports. */
  function Shown(l: Line): (r: Move)
    requires l.Transfer? || l.Flagged?
  {
    l.move
  }

  /** The move a line of simulateCode1 says it should have been. */
  function Intended(l: Line): (r: Move)
    requires l.Transfer? || l.Flagged?
  {
    if l.Transfer? then l.move else Move(l.move.disk, l.move.from, l.shouldBe)
  }

  /**
   * Code 1 on the page prints what the faulty Java method prints, and its
   * flags are right: reading every flagged line with its "should be" target
   * gives the correct solution. With three distinct labels a line is flagged
   * exactly when the move it shows is not the correct one.
   */
  lemma Code1Simulation(n: int, src: Label, helper: Label, dest: Label)
    requires n >= 1 && Distinct3(src, helper, dest)
    ensures var ls := Code1Lines(Calls(n, src, helper, dest));
      |ls| == Pow2(n) - 1 &&
      (forall i :: 0 <= i < |ls| ==> Shown(ls[i]) == Solution1.TowerOfHanoi(n, src, helper, dest)[i]) &&
      (forall i :: 0 <= i < |ls| ==> Intended(ls[i]) == Solve(n, src, helper, dest)[i]) &&
      (forall i :: 0 <= i < |ls| ==> (ls[i].Flagged? <==> Shown(ls[i]) != Solve(n, src, helper, dest)[i]))
  {
    var cs := Calls(n, src, helper, dest);
    Solution1.FollowsCalls(n, src, helper, dest);
    SolveFollowsCalls(n, src, helper, dest);
    CallsKeepLabelsDistinct(n, src, helper, dest);
  }

  /** The lines simulateCode2 adds: every move of ms, numbered from start + 1 on. */
  function Code2Lines(ms: seq<Move>, start: int): (ls: seq<Line>)
    ensures |ls| == |ms|
  {
    seq(|ms|, i requires 0 <= i < |ms| => Counted(ms[i], start + i + 1))
  }

  lemma Code2LinesAfterSolve(n: int, source: Label, helper: Label, destination: Label, before: seq<Line>, start: int)
    requires n >= 2
    ensures before + Code2Lines(Solve(n - 1, source, destination, helper), start)
           + [Counted(Move(n, source, destination), start + Pow2(n - 1))]
           + Code2Lines(Solve(n - 1, helper, source, destination), start + Pow2(n - 1))
         == before + Code2Lines(Solve(n, source, helper, destination), start)
  {
    var left := Solve(n - 1, source, destination, helper);
    var right := Solve(n - 1, helper, source, destination);
    var all := Solve(n, source, helper, destination);
    assert all == left + [Move(n, source, destination)] + right;
    assert Code2Lines(all, start) == Code2Lines(left, start) + [Counted(Move(n, source, destination), start + Pow2(n - 1))] + Code2Lines(right, start + Pow2(n - 1));
  }

  /** The counter object simulateCode2 increments. */
  class StepCounter {
    var count: int

    constructor ()
      ensures count == 0
    {
      count := 0;
    }
  }

  /** The height of position k on a tower, in pixels from its base: 8 + 20k. */
  function Height(k: int): (r: int)
  {
    8 + 20 * k
  }

  /** The horizontal offset of disk i, half its width 20 + 20i to the left. */
  function LeftOffset(i: int): (r: int)
  {
    -(10 + 10 * i)
  }

  /** The heights resetTowers gives disks 1..n, stacked largest first. */
  function ResetBottoms(n: int): (r: map<int, int>)
  {
    map i | 1 <= i <= n :: ResetHeight(n, i)
  }

  /** Where resetTowers draws disk i of n: above the n - i larger disks. */
  function ResetHeight(n: int, i: int): (r: int)
  {
    Height(n - i)
  }

  function ResetLefts(n: int): (r: map<int, int>)
  {
    map i | 1 <= i <= n :: LeftOffset(i)
  }

  /** Every disk on tower s is drawn at the height of its position. */
  predicate PlacedOn(s: seq<int>, bottom: map<int, int>)
  {
    forall k :: 0 <= k < |s| ==> s[k] in bottom && bottom[s[k]] == Height(k)
  }

  predicate Placed(p: Pegs, bottom: map<int, int>)
  {
    PlacedOn(p.a, bottom) && PlacedOn(p.b, bottom) && PlacedOn(p.c, bottom)
  }

  /** The height moveDisk gives a disk it finds: the number of disks left on the target after taking it out. */
  function Placement(p: Pegs, bottom: map<int, int>, m: Move): (r: map<int, int>)
    requires IsPeg(m.from) && IsPeg(m.to)
  {
    if m.disk !in Get(p, m.from) then bottom
    else bottom[m.disk := Height(|Get(Set(p, m.from, RemoveFirst(Get(p, m.from), m.disk)), m.to)|)]
  }

  /** The reset towers are drawn in place: disk n - k at height 8 + 20k. */
  lemma ResetIsPlaced(n: nat)
    ensures Placed(Initial(n), ResetBottoms(n))
  {
    var t := Tower(n);
    forall k | 0 <= k < |t|
      ensures t[k] in ResetBottoms(n) && ResetBottoms(n)[t[k]] == Height(k)
    {
      assert t[k] == n - k;
    }
  }

  class Page {
    var output: seq<Line>
    var pegs: Pegs
    var bottom: map<int, int>
    var left: map<int, int>

    /** The page after DOMContentLoaded: an empty panel and three disks on tower a. */
    constructor ()
      ensures output == [] && pegs == Initial(3)
      ensures bottom == ResetBottoms(3) && left == ResetLefts(3)
    {
      output := [];
      pegs := Pegs([], [], []);
      bottom := map[];
      left := map[];
      new;
      ResetTowers(3);
    }

    /** getUserN: the disk count from the field's text, or None after showing the range message. */
    method GetUserN(value: string) returns (r: Option<int>)
      modifies this
      ensures r == Input.CheckedN(value)
      ensures r.None? ==> output == old(output) + [RangeError]
      ensures r.Some? ==> output == old(output)
      ensures pegs == old(pegs) && bottom == old(bottom) && left == old(left)
    {
      r := Input.CheckedN(value);
      if r.None? {
        output := output + [RangeError];
      }
    }

    /** clearOutput. */
    method ClearOutput()
      modifies this
      ensures output == [Cleared]
      ensures pegs == old(pegs) && bottom == old(bottom) && left == old(left)
    {
      output := [Cleared];
    }

    /** simulateCode1: the lines of the faulty solver, one per printing call; the counter is not used. */
    method SimulateCode1(n: int, src: Label, helper: Label, dest: Label, counter: StepCounter)
      requires n >= 1
      modifies this
      ensures output == old(output) + Code1Lines(Calls(n, src, helper, dest))
      ensures pegs == old(pegs) && bottom == old(bottom) && left == old(left)
      ensures counter.count == old(counter.count)
      decreases n
    {
      if n == 1 {
        output := output + [Transfer(Move(n, src, dest))];
        assert Code1Lines(Calls(1, src, helper, dest)) == [Transfer(Move(1, src, dest))];
        return;
      }
      SimulateCode1(n - 1, src, dest, helper, counter);
      output := output + [Flagged(Move(n, src, helper), dest)];
      SimulateCode1(n - 1, helper, src, dest, counter);
      Code1LinesAfterCalls(n, src, helper, dest, old(output));
    }

    /** simulateCode2: every move of the correct solution, numbered by the shared counter. */
    method SimulateCode2(n: int, source: Label, helper: Label, destination: Label, counter: StepCounter)
      requires n >= 1
      modifies this, counter
      ensures counter.count == old(counter.count) + Pow2(n) - 1
      ensures output == old(output) + Code2Lines(Solve(n, source, helper, destination), old(counter.count))
      ensures pegs == old(pegs) && bottom == old(bottom) && left == old(left)
      decreases n
    {
      if n == 1 {
        counter.count := counter.count + 1;
        output := output + [Counted(Move(1, source, destination), counter.count)];
        assert Code2Lines(Solve(1, source, helper, destination), old(counter.count)) == [Counted(Move(1, source, destination), old(counter.count) + 1)];
        return;
      }
      ghost var start, before := counter.count, output;
      SimulateCode2(n - 1, source, destination, helper, counter);
      counter.count := counter.count + 1;
      ghost var middle := counter.count;
      output := output + [Counted(Move(n, source, destination), counter.count)];
      ghost var shown := output;
      SimulateCode2(n - 1, helper, source, destination, counter);
      assert middle == start + Pow2(n - 1);
      assert shown == before + Code2Lines(Solve(n - 1, source, destination, helper), start) + [Counted(Move(n, source, destination), start + Pow2(n - 1))];
      Code2LinesAfterSolve(n, source, helper, destination, before, start);
    }

    /**
     * executeCode1: for an accepted n, a cleared panel, then (after half a
     * second) the lines of the faulty solver from A to C and the expected
     * count 2^n - 1.
     */
    method ExecuteCode1(value: string)
      modifies this
      ensures Input.CheckedN(value).None? ==> output == old(output) + [RangeError]
      ensures Input.CheckedN(value).Some? ==>
        var n := Input.CheckedN(value).value;
        output == [Cleared] + Code1Lines(Calls(n, 'A', 'B', 'C')) + [ExpectedSteps(Pow2(n) - 1)]
      ensures pegs == old(pegs) && bottom == old(bottom) && left == old(left)
    {
      var r := GetUserN(value);
      if r.Some? {
        ClearOutput();
        Code1Callback(r.value);
      }
    }

    /** The callback executeCode1 arms for 500 ms later. */
    method Code1Callback(n: int)
      requires n >= 1
      modifies this
      ensures output == old(output) + Code1Lines(Calls(n, 'A', 'B', 'C')) + [ExpectedSteps(Pow2(n) - 1)]
      ensures pegs == old(pegs) && bottom == old(bottom) && left == old(left)
    {
      var counter := new StepCounter();
      SimulateCode1(n, 'A', 'B', 'C', counter);
      output := output + [ExpectedSteps(Pow2(n) - 1)];
    }

    /**
     * executeCode2: for an accepted n, a cleared panel, then (after half a
     * second) the numbered moves of the correct solver from A to C, the final
     * count and the formula's value.
     */
    method ExecuteCode2(value: string)
      modifies this
      ensures Input.CheckedN(value).None? ==> output == old(output) + [RangeError]
      ensures Input.CheckedN(value).Some? ==>
        var n := Input.CheckedN(value).value;
        output == [Cleared] + Code2Lines(Solve(n, 'A', 'B', 'C'), 0) + [TotalSteps(Pow2(n) - 1), Formula(n, Pow2(n) - 1)]
      ensures pegs == old(pegs) && bottom == old(bottom) && left == old(left)
    {
      var r := GetUserN(value);
      if r.Some? {
        ClearOutput();
        Code2Callback(r.value);
      }
    }

    /** The callback executeCode2 arms for 500 ms later: the total printed is the counter's final value. */
    method Code2Callback(n: int)
      requires n >= 1
      modifies this
      ensures output == old(output) + Code2Lines(Solve(n, 'A', 'B', 'C'), 0) + [TotalSteps(Pow2(n) - 1), Formula(n, Pow2(n) - 1)]
      ensures pegs == old(pegs) && bottom == old(bottom) && left == old(left)
    {
      var counter := new StepCounter();
      SimulateCode2(n, 'A', 'B', 'C', counter);
      output := output + [TotalSteps(counter.count), Formula(n, Pow2(n) - 1)];
    }

    /** resetTowers: empties the towers and stacks disks n..1 on tower a, each at the height of its position. */
    method ResetTowers(n: int)
      modifies this
      ensures pegs == Initial(if n < 0 then 0 else n)
      ensures bottom == ResetBottoms(n) && left == ResetLefts(n)
      ensures output == old(output)
    {
      pegs := Pegs([], [], []);
      bottom := map[];
      left := map[];
      var i := n;
      while i >= 1
        invariant if n >= 1 then 0 <= i <= n else i == n
        invariant pegs == Pegs(Stacked(n, i), [], [])
        invariant bottom == map j | i < j <= n :: ResetHeight(n, j)
        invariant left == map j | i < j <= n :: LeftOffset(j)
        invariant output == old(output)
      {
        bottom := bottom[i := ResetHeight(n, i)];
        left := left[i := LeftOffset(i)];
        pegs := pegs.(a := pegs.a + [i]);
        StackedStep(n, i);
        i := i - 1;
      }
      StackedAll(n, i);
    }

    /**
     * moveDisk: the first disk of the from-tower with the given number is
     * taken out and put on top of the to-tower, at the height of the disks
     * left there; when there is no such disk nothing changes.
     */
    method MoveDisk(diskNum: int, fromTower: Label, toTower: Label)
      requires IsPeg(fromTower) && IsPeg(toTower)
      modifies this
      ensures pegs == Apply(old(pegs), Move(diskNum, fromTower, toTower))
      ensures bottom == Placement(old(pegs), old(bottom), Move(diskNum, fromTower, toTower))
      ensures left == if diskNum in Get(old(pegs), fromTower) then old(left)[diskNum := LeftOffset(diskNum)] else old(left)
      ensures output == old(output)
    {
      var disks := Get(pegs, fromTower);
      var i := 0;
      while i < |disks| && disks[i] != diskNum
        invariant 0 <= i <= |disks|
        invariant forall j :: 0 <= j < i ==> disks[j] != diskNum
      {
        i := i + 1;
      }
      FirstIndexIs(disks, diskNum, i);
      if i == |disks| {
        return;
      }
      MoveDiskSteps(pegs, bottom, Move(diskNum, fromTower, toTower), i);
      var removed := Set(pegs, fromTower, disks[..i] + disks[i + 1..]);
      var inDestination := |Get(removed, toTower)|;
      bottom := bottom[diskNum := Height(inDestination)];
      left := left[diskNum := LeftOffset(diskNum)];
      pegs := Set(removed, toTower, Get(removed, toTower) + [diskNum]);
    }

    /** What a replay timer does when it goes off: show the numbered move and perform it, or announce the end. */
    method Fire(t: Timer<MoveRecord>)
      requires Aimed(t)
      modifies this
      ensures Scene(output, Board(pegs, bottom)) == FireOne(Scene(old(output), Board(old(pegs), old(bottom))), t)
      ensures left == if t.event.FireMove? && t.event.item.disk in Get(old(pegs), t.event.item.from)
        then old(left)[t.event.item.disk := LeftOffset(t.event.item.disk)] else old(left)
    {
      match t.event
      case FireMove(index, item) =>
        output := output + [Numbered(index + 1, item.desc)];
        MoveDisk(item.disk, item.from, item.to);
      case Complete(total) =>
        output := output + [PuzzleSolved(total)];
    }

    /**
     * visualDemo: for an accepted n, a cleared panel, the reset towers, the
     * count of moves, and the timers that will replay the correct solution
     * from a to c.
     */
    method VisualDemo(value: string) returns (timers: seq<Timer<MoveRecord>>)
      modifies this
      ensures Input.CheckedN(value).None? ==>
        timers == [] && output == old(output) + [RangeError] &&
        pegs == old(pegs) && bottom == old(bottom) && left == old(left)
      ensures Input.CheckedN(value).Some? ==>
        var n := Input.CheckedN(value).value;
        output == [Cleared, Required(Pow2(n) - 1, n)]
      ensures Input.CheckedN(value).Some? ==>
        var n := Input.CheckedN(value).value;
        pegs == Initial(n) && bottom == ResetBottoms(n) && left == ResetLefts(n)
      ensures Input.CheckedN(value).Some? ==>
        timers == Schedule(Records(Solve(Input.CheckedN(value).value, 'a', 'b', 'c')))
    {
      var r := GetUserN(value);
      if r.Some? {
        timers := Demo(r.value);
      } else {
        timers := [];
      }
    }

    /** What visualDemo does once n is accepted: clear, reset, count the moves and arm the timers. */
    method Demo(n: int) returns (timers: seq<Timer<MoveRecord>>)
      requires n >= 1
      modifies this
      ensures output == [Cleared, Required(Pow2(n) - 1, n)]
      ensures pegs == Initial(n) && bottom == ResetBottoms(n) && left == ResetLefts(n)
      ensures timers == Schedule(Records(Solve(n, 'a', 'b', 'c')))
    {
      ClearOutput();
      ResetTowers(n);
      var moves := SolutionRecords(n);
      output := output + [Required(|moves|, n)];
      timers := ArmTimers(moves);
    }
  }

  /** The lines of the two recursive calls of simulateCode1 and the flagged line between them. */
  lemma Code1LinesAfterCalls(n: int, src: Label, helper: Label, dest: Label, before: seq<Line>)
    requires n >= 2
    ensures before + Code1Lines(Calls(n - 1, src, dest, helper)) + [Flagged(Move(n, src, helper), dest)] + Code1Lines(Calls(n - 1, helper, src, dest))
         == before + Code1Lines(Calls(n, src, helper, dest))
  {
    var left := Calls(n - 1, src, dest, helper);
    var right := Calls(n - 1, helper, src, dest);
    var c := Call(n, src, helper, dest);
    Code1LinesConcat(left, c, right);
    assert Calls(n, src, helper, dest) == left + [c] + right;
  }

  /** The disks resetTowers has stacked on tower a when its loop variable is i: n down to i + 1. */
  function Stacked(n: int, i: int): (s: seq<int>)
  {
    if n > i then seq(n - i, k requires 0 <= k < n - i => n - k) else []
  }

  lemma StackedStep(n: int, i: int)
    requires 1 <= i <= n
    ensures Stacked(n, i) + [i] == Stacked(n, i - 1)
  {
  }

  lemma StackedAll(n: int, i: int)
    requires if n >= 1 then i == 0 else i == n
    ensures Stacked(n, i) == Tower(if n < 0 then 0 else n)
  {
  }

  /** The steps of moveDisk once the disk is found at position i of the from-tower. */
  lemma MoveDiskSteps(p: Pegs, bottom: map<int, int>, m: Move, i: int)
    requires IsPeg(m.from) && IsPeg(m.to)
    requires i == FirstIndex(Get(p, m.from), m.disk) < |Get(p, m.from)|
    ensures m.disk in Get(p, m.from)
    ensures var s := Get(p, m.from);
      var removed := Set(p, m.from, s[..i] + s[i + 1..]);
      Apply(p, m) == Set(removed, m.to, Get(removed, m.to) + [m.disk]) &&
      Placement(p, bottom, m) == bottom[m.disk := Height(|Get(removed, m.to)|)]
  {
    var s := Get(p, m.from);
    assert s[i] == m.disk;
    assert RemoveFirst(s, m.disk) == s[..i] + s[i + 1..];
  }

  /** The position the find loop stops at is the one FirstIndex names. */
  lemma FirstIndexIs(s: seq<int>, x: int, i: int)
    requires 0 <= i <= |s| && (i < |s| ==> s[i] == x)
    requires forall j :: 0 <= j < i ==> s[j] != x
    ensures FirstIndex(s, x) == i
  {
  }

  /** The towers and the heights their disks are drawn at. */
  datatype Board = Board(pegs: Pegs, bottom: map<int, int>)

  /** The part of the page a replay timer changes: the panel and the board. */
  datatype Scene = Scene(output: seq<Line>, board: Board)

  /** A timer whose move names two towers of the page. */
  predicate Aimed(t: Timer<MoveRecord>)
  {
    t.event.FireMove? ==> IsPeg(t.event.item.from) && IsPeg(t.event.item.to)
  }

  /** moveDisk on the scene. */
  function Step(b: Board, m: Move): (r: Board)
    requires IsPeg(m.from) && IsPeg(m.to)
  {
    Board(Apply(b.pegs, m), Placement(b.pegs, b.bottom, m))
  }

  /** The callback of one timer. */
  function FireOne(s: Scene, t: Timer<MoveRecord>): (r: Scene)
    requires Aimed(t)
  {
    match t.event
    case FireMove(index, item) => Scene(s.output + [Numbered(index + 1, item.desc)], Step(s.board, RecordMove(item)))
    case Complete(total) => Scene(s.output + [PuzzleSolved(total)], s.board)
  }

  /** The timers' callbacks run one after another, in the order of ts. */
  function FireAll(s: Scene, ts: seq<Timer<MoveRecord>>): (r: Scene)
    requires forall i :: 0 <= i < |ts| ==> Aimed(ts[i])
    decreases |ts|
  {
    if ts == [] then s else FireAll(FireOne(s, ts[0]), ts[1..])
  }

  /** The moves a list of records performs. */
  function Moves(rs: seq<MoveRecord>): (ms: seq<Move>)
    ensures |ms| == |rs|
  {
    seq(|rs|, i requires 0 <= i < |rs| => RecordMove(rs[i]))
  }

  lemma MovesOfRecords(ms: seq<Move>)
    ensures Moves(Records(ms)) == ms
  {
  }

  /** The lines the move timers show for rs, numbered from start + 1 on. */
  function NumberedLines(rs: seq<MoveRecord>, start: int): (ls: seq<Line>)
    ensures |ls| == |rs|
  {
    seq(|rs|, i requires 0 <= i < |rs| => Numbered(start + i + 1, rs[i].desc))
  }

  /** Moves whose towers are all towers of the page. */
  predicate OnPegs(ms: seq<Move>)
  {
    forall i :: 0 <= i < |ms| ==> IsPeg(ms[i].from) && IsPeg(ms[i].to)
  }

  /** The board after performing ms one after another, as moveDisk does. */
  function Perform(b: Board, ms: seq<Move>): (r: Board)
    requires OnPegs(ms)
    decreases |ms|
  {
    if ms == [] then b else Perform(Step(b, ms[0]), ms[1..])
  }

  /**
   * Timers that carry the records rs in order, numbered from start, followed
   * by a closing timer: firing them shows every record's line, performs every
   * record's move and ends with the closing line.
   */
  lemma {:induction false} FireAllPerforms(s: Scene, rs: seq<MoveRecord>, start: int, total: nat, ts: seq<Timer<MoveRecord>>)
    requires start >= 0 && |ts| == |rs| + 1
    requires forall i :: 0 <= i < |rs| ==> ts[i].event == FireMove(start + i, rs[i])
    requires ts[|rs|].event == Complete(total)
    requires OnPegs(Moves(rs))
    ensures forall i :: 0 <= i < |ts| ==> Aimed(ts[i])
    ensures FireAll(s, ts) == Scene(s.output + NumberedLines(rs, start) + [PuzzleSolved(total)], Perform(s.board, Moves(rs)))
    decreases |rs|
  {
    forall i | 0 <= i < |ts|
      ensures Aimed(ts[i])
    {
      if i < |rs| {
        assert RecordMove(rs[i]) == Moves(rs)[i];
      }
    }
    if rs == [] {
      assert ts[1..] == [];
    } else {
      var s1 := FireOne(s, ts[0]);
      assert Moves(rs)[0] == RecordMove(rs[0]);
      assert Moves(rs[1..]) == Moves(rs)[1..];
      forall i | 0 <= i < |rs[1..]|
        ensures ts[1..][i].event == FireMove(start + 1 + i, rs[1..][i])
      {
        assert ts[1..][i] == ts[i + 1];
      }
      FireAllPerforms(s1, rs[1..], start + 1, total, ts[1..]);
      assert NumberedLines(rs, start) == [Numbered(start + 1, rs[0].desc)] + NumberedLines(rs[1..], start + 1);
    }
  }

  /** Pegs on which no disk appears on two towers. */
  predicate Apart(s: seq<int>, t: seq<int>)
  {
    forall x :: x in s ==> x !in t
  }

  predicate Disjoint(p: Pegs)
  {
    Apart(p.a, p.b) && Apart(p.a, p.c) && Apart(p.b, p.c) &&
    Apart(p.b, p.a) && Apart(p.c, p.a) && Apart(p.c, p.b)
  }

  lemma DisjointByLabel(p: Pegs, l1: Label, l2: Label)
    requires Disjoint(p) && IsPeg(l1) && IsPeg(l2) && l1 != l2
    ensures Apart(Get(p, l1), Get(p, l2))
  {
  }

  lemma PlacedKeep(s: seq<int>, bottom: map<int, int>, x: int, h: int)
    requires PlacedOn(s, bottom) && x !in s
    ensures PlacedOn(s, bottom[x := h])
  {
    forall k | 0 <= k < |s|
      ensures s[k] != x
    {
    }
  }

  lemma PlacedPop(s: seq<int>, bottom: map<int, int>, h: int)
    requires PlacedOn(s, bottom) && |s| > 0 && Descending(s)
    ensures PlacedOn(s[..|s| - 1], bottom[s[|s| - 1] := h])
  {
    var init := s[..|s| - 1];
    forall k | 0 <= k < |init|
      ensures init[k] != s[|s| - 1] && init[k] == s[k]
    {
    }
  }

  lemma PlacedPush(t: seq<int>, bottom: map<int, int>, x: int)
    requires PlacedOn(t, bottom) && x !in t
    ensures PlacedOn(t + [x], bottom[x := Height(|t|)])
  {
    PlacedKeep(t, bottom, x, Height(|t|));
    forall k | 0 <= k < |t| + 1
      ensures (t + [x])[k] in bottom[x := Height(|t|)] && bottom[x := Height(|t|)][(t + [x])[k]] == Height(k)
    {
      if k < |t| {
        assert (t + [x])[k] == t[k];
      }
    }
  }

  /** A legal move performed by moveDisk keeps every disk drawn at the height of its position. */
  lemma LegalKeepsPlaced(p: Pegs, bottom: map<int, int>, m: Move)
    requires Legal(p, m) && WellStacked(p) && Disjoint(p) && Placed(p, bottom)
    ensures Disjoint(Apply(p, m))
    ensures Placed(Apply(p, m), Placement(p, bottom, m))
  {
    var s := Get(p, m.from);
    var t := Get(p, m.to);
    assert Descending(s) && Descending(t);
    assert PlacedOn(s, bottom) && PlacedOn(t, bottom);
    LegalIsPopPush(p, m);
    RemoveTop(s);
    var b := Placement(p, bottom, m);
    var q := Apply(p, m);
    DisjointByLabel(p, m.from, m.to);
    assert m.disk in s;
    assert m.disk !in t;
    assert b == bottom[m.disk := Height(|t|)];
    PlacedPop(s, bottom, Height(|t|));
    PlacedPush(t, bottom, m.disk);
    forall l | IsPeg(l) && l != m.from && l != m.to
      ensures Get(q, l) == Get(p, l) && m.disk !in Get(p, l) && Apart(Get(p, l), s) && Apart(Get(p, l), t)
      ensures PlacedOn(Get(q, l), b)
    {
      DisjointByLabel(p, m.from, l);
      DisjointByLabel(p, l, m.from);
      DisjointByLabel(p, l, m.to);
      assert PlacedOn(Get(p, l), bottom);
      PlacedKeep(Get(p, l), bottom, m.disk, Height(|t|));
    }
    assert Get(q, m.from) == s[..|s| - 1];
    assert Get(q, m.to) == t + [m.disk];
    DisjointByLabel(p, m.to, m.from);
    PlacedLabels(q, b, m.from, m.to);
    DisjointLabels(p, q, m);
  }

  /** The top of a tower stacked largest first occurs once, at the top. */
  lemma RemoveTop(s: seq<int>)
    requires Descending(s) && |s| > 0
    ensures s[|s| - 1] !in s[..|s| - 1]
    ensures forall j :: 0 <= j < |s| - 1 ==> s[j] != s[|s| - 1]
  {
  }

  /** Placed checked tower by tower when two distinct towers are named. */
  lemma PlacedLabels(q: Pegs, b: map<int, int>, x: Label, y: Label)
    requires IsPeg(x) && IsPeg(y) && x != y
    requires PlacedOn(Get(q, x), b) && PlacedOn(Get(q, y), b)
    requires forall l :: IsPeg(l) && l != x && l != y ==> PlacedOn(Get(q, l), b)
    ensures Placed(q, b)
  {
    assert IsPeg('a') && IsPeg('b') && IsPeg('c');
  }

  /** The towers after a legal move share no disk. */
  lemma DisjointLabels(p: Pegs, q: Pegs, m: Move)
    requires Legal(p, m) && Disjoint(p) && WellStacked(p)
    requires var s := Get(p, m.from); Get(q, m.from) == s[..|s| - 1] && s[|s| - 1] == m.disk && m.disk !in s[..|s| - 1]
    requires Get(q, m.to) == Get(p, m.to) + [m.disk]
    requires forall l :: IsPeg(l) && l != m.from && l != m.to ==> Get(q, l) == Get(p, l)
    ensures Disjoint(q)
  {
    var s := Get(p, m.from);
    var t := Get(p, m.to);
    var o := if m.from != 'a' && m.to != 'a' then 'a' else if m.from != 'b' && m.to != 'b' then 'b' else 'c';
    var u := Get(p, o);
    DisjointByLabel(p, m.from, m.to);
    DisjointByLabel(p, m.to, m.from);
    DisjointByLabel(p, m.from, o);
    DisjointByLabel(p, o, m.from);
    DisjointByLabel(p, m.to, o);
    DisjointByLabel(p, o, m.to);
    assert m.disk in s;
    forall x | x in s[..|s| - 1]
      ensures x in s && x != m.disk
    {
    }
    assert Get(q, o) == u;
    assert Apart(Get(q, m.from), Get(q, m.to)) && Apart(Get(q, m.to), Get(q, m.from));
    assert Apart(Get(q, m.from), Get(q, o)) && Apart(Get(q, o), Get(q, m.from));
    assert Apart(Get(q, m.to), Get(q, o)) && Apart(Get(q, o), Get(q, m.to));
    LabelsCover(q, m.from, m.to, o);
  }

  /** Disjoint checked pair by pair for any naming of the three towers. */
  lemma LabelsCover(q: Pegs, x: Label, y: Label, z: Label)
    requires IsPeg(x) && IsPeg(y) && IsPeg(z) && Distinct3(x, y, z)
    requires Apart(Get(q, x), Get(q, y)) && Apart(Get(q, y), Get(q, x))
    requires Apart(Get(q, x), Get(q, z)) && Apart(Get(q, z), Get(q, x))
    requires Apart(Get(q, y), Get(q, z)) && Apart(Get(q, z), Get(q, y))
    ensures Disjoint(q)
  {
    assert IsPeg('a') && IsPeg('b') && IsPeg('c');
    assert Apart(Get(q, 'a'), Get(q, 'b')) && Apart(Get(q, 'a'), Get(q, 'c')) && Apart(Get(q, 'b'), Get(q, 'c'));
    assert Apart(Get(q, 'b'), Get(q, 'a')) && Apart(Get(q, 'c'), Get(q, 'a')) && Apart(Get(q, 'c'), Get(q, 'b'));
  }

  /**
   * Performing a legal sequence of moves from a well-drawn board ends on the
   * towers the rules give, with every disk still drawn at its position.
   */
  lemma {:induction false} PerformFollowsRun(b: Board, ms: seq<Move>)
    requires Run(b.pegs, ms).Some?
    requires WellStacked(b.pegs) && Disjoint(b.pegs) && Placed(b.pegs, b.bottom)
    ensures OnPegs(ms)
    ensures Perform(b, ms).pegs == Run(b.pegs, ms).value
    ensures Placed(Perform(b, ms).pegs, Perform(b, ms).bottom)
    decreases |ms|
  {
    if ms != [] {
      var m := ms[0];
      assert Legal(b.pegs, m);
      LegalKeepsPlaced(b.pegs, b.bottom, m);
      LegalKeepsStacked(b.pegs, m);
      PerformFollowsRun(Step(b, m), ms[1..]);
      forall i | 0 <= i < |ms|
        ensures IsPeg(ms[i].from) && IsPeg(ms[i].to)
      {
        if i > 0 {
          assert ms[i] == ms[1..][i - 1];
        }
      }
    }
  }

  /**
   * The visual demonstration plays the solution: after visualDemo, firing its
   * timers in time order shows "1. ..." to "2^n - 1. ..." with the records'
   * texts and then the closing line, leaves every disk on tower c and every
   * disk drawn at the height of its position there.
   */
  lemma DemoPlaysSolution(n: int, shown: seq<Line>)
    requires n >= 1
    ensures var ts := Schedule(Records(Solve(n, 'a', 'b', 'c')));
      (forall i :: 0 <= i < |ts| ==> Aimed(ts[i])) &&
      var s := FireAll(Scene(shown, Board(Initial(n), ResetBottoms(n))), ts);
      s.output == shown + NumberedLines(Records(Solve(n, 'a', 'b', 'c')), 0) + [PuzzleSolved(Pow2(n) - 1)] &&
      s.board.pegs == Solved(n) &&
      Placed(Solved(n), s.board.bottom)
  {
    var rs := Records(Solve(n, 'a', 'b', 'c'));
    var b := Board(Initial(n), ResetBottoms(n));
    DemoBoard(n);
    FireSchedule(Scene(shown, b), rs);
  }

  /** Performing the demo's records on the reset page leaves every disk on tower c, drawn in place. */
  lemma DemoBoard(n: int)
    requires n >= 1
    ensures var rs := Records(Solve(n, 'a', 'b', 'c'));
      OnPegs(Moves(rs)) &&
      Perform(Board(Initial(n), ResetBottoms(n)), Moves(rs)).pegs == Solved(n) &&
      Placed(Solved(n), Perform(Board(Initial(n), ResetBottoms(n)), Moves(rs)).bottom)
  {
    var ms := Solve(n, 'a', 'b', 'c');
    var b := Board(Initial(n), ResetBottoms(n));
    MovesOfRecords(ms);
    ReplaySolves(n);
    ResetIsPlaced(n);
    InitialDisjoint(n);
    PerformFollowsRun(b, ms);
  }

  /** Firing the timers of visualDemo in time order performs the records' moves and shows their lines. */
  lemma FireSchedule(s: Scene, rs: seq<MoveRecord>)
    requires |rs| >= 1 && OnPegs(Moves(rs))
    ensures var ts := Schedule(rs);
      (forall i :: 0 <= i < |ts| ==> Aimed(ts[i])) &&
      FireAll(s, ts) == Scene(s.output + NumberedLines(rs, 0) + [PuzzleSolved(|rs|)], Perform(s.board, Moves(rs)))
  {
    var ts := Schedule(rs);
    ScheduleInOrder(rs);
    assert forall i :: 0 <= i < |rs| ==> ts[i].event == FireMove(0 + i, rs[i]);
    FireAllPerforms(s, rs, 0, |rs|, ts);
  }

  lemma InitialDisjoint(n: nat)
    ensures Disjoint(Initial(n)) && WellStacked(Initial(n))
  {
    TowerDescending(n);
  }

  /** Every move with its tower letters in upper case. */
  function UpperMoves(ms: seq<Move>): (us: seq<Move>)
    ensures |us| == |ms|
  {
    seq(|ms|, i requires 0 <= i < |ms| => Move(ms[i].disk, Text.Upper(ms[i].from), Text.Upper(ms[i].to)))
  }

  lemma UpperMovesConcat(a: seq<Move>, m: Move, b: seq<Move>)
    ensures UpperMoves(a + [m] + b) == UpperMoves(a) + UpperMoves([m]) + UpperMoves(b)
  {
  }

  /** Solving with upper-case labels is solving and then writing the labels in upper case. */
  lemma {:induction false} SolveUpper(n: int, source: Label, helper: Label, destination: Label)
    requires n >= 1
    ensures Solve(n, Text.Upper(source), Text.Upper(helper), Text.Upper(destination)) == UpperMoves(Solve(n, source, helper, destination))
    decreases n
  {
    if n > 1 {
      SolveUpper(n - 1, source, destination, helper);
      SolveUpper(n - 1, helper, source, destination);
      UpperMovesConcat(Solve(n - 1, source, destination, helper), Move(n, source, destination), Solve(n - 1, helper, source, destination));
    }
  }

  /**
   * The page's move list and the optimised Java solver agree: the text of
   * record i of generateHanoiMoves(n, 'a', 'b', 'c') is line i that
   * solveHanoi(n, 'A', 'B', 'C') prints, and simulateCode2(n, 'A', 'B', 'C')
   * shows the same moves numbered 1, 2, ... in the same order.
   */
  lemma PageAgreesWithJava(n: int)
    requires n >= 1
    ensures var rs := Records(Solve(n, 'a', 'b', 'c'));
      var printed := Solution2.Lines(Solve(n, 'A', 'B', 'C'));
      var shown := Code2Lines(Solve(n, 'A', 'B', 'C'), 0);
      |rs| == |printed| == |shown| == Pow2(n) - 1 &&
      (forall i :: 0 <= i < |rs| ==> rs[i].desc == printed[i]) &&
      (forall i :: 0 <= i < |rs| ==> shown[i] == Counted(Move(rs[i].disk, Text.Upper(rs[i].from), Text.Upper(rs[i].to)), i + 1))
  {
    SolveUpper(n, 'a', 'b', 'c');
    assert Text.Upper('a') == 'A' && Text.Upper('b') == 'B' && Text.Upper('c') == 'C';
  }
}
