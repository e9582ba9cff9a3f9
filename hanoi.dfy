/**
 * The recursive decomposition of the Tower of Hanoi that every generator of
 * the program follows: move n-1 disks out of the way onto the helper peg,
 * move disk n, move the n-1 disks from the helper onto the destination.
 */
module Hanoi {

  /** A peg label; every caller passes a one-letter name (A, B, C or a, b, c). */
  type Label = char

  /** One emitted move: the disk number, the peg it leaves and the peg it is reported to go to. */
  datatype Move = Move(disk: int, from: Label, to: Label)

  /** One "disk k" line of a recursive call, together with that call's three labels. */
  datatype Call = Call(disk: int, from: Label, helper: Label, to: Label)

  function Pow2(k: nat): (r: nat)
    ensures r >= 1
  {
    if k == 0 then 1 else 2 * Pow2(k - 1)
  }

  predicate Distinct3(x: Label, y: Label, z: Label)
  {
    x != y && y != z && x != z
  }

  /**
   * The correct move list for n disks from source to destination.
   * It has 2^n - 1 moves, and every move names one of the disks 1..n.
   */
  function Solve(n: int, source: Label, helper: Label, destination: Label): (r: seq<Move>)
    requires n >= 1
    ensures |r| == Pow2(n) - 1
    ensures forall i :: 0 <= i < |r| ==> 1 <= r[i].disk <= n
    decreases n
  {
    if n == 1 then
      [Move(1, source, destination)]
    else
      Solve(n - 1, source, destination, helper) + [Move(n, source, destination)] + Solve(n - 1, helper, source, destination)
  }

  /** The sequence of calls that print a line, in printing order, with each call's labels. */
  function Calls(n: int, source: Label, helper: Label, destination: Label): (r: seq<Call>)
    requires n >= 1
    ensures |r| == Pow2(n) - 1
    decreases n
  {
    if n == 1 then
      [Call(1, source, helper, destination)]
    else
      Calls(n - 1, source, destination, helper) + [Call(n, source, helper, destination)] + Calls(n - 1, helper, source, destination)
  }

  /** What the correct generators report for each call: the call's true destination. */
  function Targets(cs: seq<Call>): (r: seq<Move>)
  {
    seq(|cs|, i requires 0 <= i < |cs| => Move(cs[i].disk, cs[i].from, cs[i].to))
  }

  lemma TargetsConcat(a: seq<Call>, c: Call, b: seq<Call>)
    ensures Targets(a + [c] + b) == Targets(a) + [Move(c.disk, c.from, c.to)] + Targets(b)
  {
  }

  /** The correct move list reports, for every printing call, that call's destination. */
  lemma {:induction false} SolveFollowsCalls(n: int, source: Label, helper: Label, destination: Label)
    requires n >= 1
    ensures Solve(n, source, helper, destination) == Targets(Calls(n, source, helper, destination))
    decreases n
  {
    if n > 1 {
      SolveFollowsCalls(n - 1, source, destination, helper);
      SolveFollowsCalls(n - 1, helper, source, destination);
      TargetsConcat(Calls(n - 1, source, destination, helper), Call(n, source, helper, destination), Calls(n - 1, helper, source, destination));
    }
  }

  /** Every call permutes the three labels it was given, so distinct labels stay distinct. */
  lemma {:induction false} CallsKeepLabelsDistinct(n: int, source: Label, helper: Label, destination: Label)
    requires n >= 1
    requires Distinct3(source, helper, destination)
    ensures forall i :: 0 <= i < |Calls(n, source, helper, destination)| ==>
      var c := Calls(n, source, helper, destination)[i];
      Distinct3(c.from, c.helper, c.to)
    decreases n
  {
    if n > 1 {
      CallsKeepLabelsDistinct(n - 1, source, destination, helper);
      CallsKeepLabelsDistinct(n - 1, helper, source, destination);
    }
  }

  predicate Among(l: Label, x: Label, y: Label, z: Label)
  {
    l == x || l == y || l == z
  }

  /** Every move of the correct list goes between two of the three pegs it was given. */
  lemma {:induction false} SolveStaysOnPegs(n: int, source: Label, helper: Label, destination: Label)
    requires n >= 1
    ensures forall i :: 0 <= i < |Solve(n, source, helper, destination)| ==>
      Among(Solve(n, source, helper, destination)[i].from, source, helper, destination) &&
      Among(Solve(n, source, helper, destination)[i].to, source, helper, destination)
    decreases n
  {
    if n > 1 {
      SolveStaysOnPegs(n - 1, source, destination, helper);
      SolveStaysOnPegs(n - 1, helper, source, destination);
      var left := Solve(n - 1, source, destination, helper);
      var right := Solve(n - 1, helper, source, destination);
      var all := Solve(n, source, helper, destination);
      assert all == left + [Move(n, source, destination)] + right;
      forall i | 0 <= i < |all|
        ensures Among(all[i].from, source, helper, destination) && Among(all[i].to, source, helper, destination)
      {
        if i < |left| {
          assert all[i] == left[i];
        } else if i > |left| {
          assert all[i] == right[i - |left| - 1];
        }
      }
    }
  }

  /** How many moves of the list move disk k. */
  function Occurrences(ms: seq<Move>, k: int): (r: nat)
    ensures r <= |ms|
  {
    if ms == [] then 0 else (if ms[0].disk == k then 1 else 0) + Occurrences(ms[1..], k)
  }

  lemma {:induction false} OccurrencesConcat(a: seq<Move>, b: seq<Move>, k: int)
    ensures Occurrences(a + b, k) == Occurrences(a, k) + Occurrences(b, k)
    decreases |a|
  {
    if a != [] {
      assert (a + b)[1..] == a[1..] + b;
      OccurrencesConcat(a[1..], b, k);
    } else {
      assert a + b == b;
    }
  }

  /** Disk k is moved 2^(n-k) times when 1 <= k <= n, and never otherwise. */
  lemma {:induction false} DiskCount(n: int, source: Label, helper: Label, destination: Label, k: int)
    requires n >= 1
    ensures Occurrences(Solve(n, source, helper, destination), k) == if 1 <= k <= n then Pow2(n - k) else 0
    decreases n
  {
    if n == 1 {
      assert Solve(n, source, helper, destination)[1..] == [];
    } else {
      var left := Solve(n - 1, source, destination, helper);
      var right := Solve(n - 1, helper, source, destination);
      OccurrencesConcat(left + [Move(n, source, destination)], right, k);
      OccurrencesConcat(left, [Move(n, source, destination)], k);
      assert Occurrences([Move(n, source, destination)], k) == if k == n then 1 else 0;
      DiskCount(n - 1, source, destination, helper, k);
      DiskCount(n - 1, helper, source, destination, k);
      if 1 <= k < n {
        assert Pow2(n - k) == 2 * Pow2(n - 1 - k);
      }
    }
  }

  /**
   * The largest disk moves exactly once, from source to destination, at
   * index 2^(n-1) - 1; no other index moves it.
   */
  lemma {:induction false} LargestMovesOnce(n: int, source: Label, helper: Label, destination: Label)
    requires n >= 1
    ensures Solve(n, source, helper, destination)[Pow2(n - 1) - 1] == Move(n, source, destination)
    ensures forall i :: 0 <= i < |Solve(n, source, helper, destination)| ==>
      (Solve(n, source, helper, destination)[i].disk == n <==> i == Pow2(n - 1) - 1)
  {
    if n > 1 {
      var left := Solve(n - 1, source, destination, helper);
      var right := Solve(n - 1, helper, source, destination);
      assert Solve(n, source, helper, destination) == left + [Move(n, source, destination)] + right;
      assert |left| == Pow2(n - 1) - 1;
    }
  }

  /**
   * Around the largest disk's move, the list is the solution for n-1 disks
   * from source to helper, then the solution for n-1 disks from helper to destination.
   */
  lemma {:induction false} SolveHalves(n: int, source: Label, helper: Label, destination: Label)
    requires n >= 2
    ensures Solve(n, source, helper, destination)[..Pow2(n - 1) - 1] == Solve(n - 1, source, destination, helper)
    ensures Solve(n, source, helper, destination)[Pow2(n - 1)..] == Solve(n - 1, helper, source, destination)
  {
    var left := Solve(n - 1, source, destination, helper);
    var right := Solve(n - 1, helper, source, destination);
    assert Solve(n, source, helper, destination) == left + [Move(n, source, destination)] + right;
    assert |left| == Pow2(n - 1) - 1;
  }
}
