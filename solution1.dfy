/**
 * src/solution1_java.java: the original recursive printer. It keeps the
 * correct recursive calls but, for every disk n >= 2, prints the call's
 * helper peg as the target instead of its destination. The base case
 * prints the true destination. It keeps no step count.
 */
module Solution1 {
  import opened Hanoi

  /** The lines printed by towerOfHanoi(n, src, helper, dest), as moves. */
  function TowerOfHanoi(n: int, src: Label, helper: Label, dest: Label): (r: seq<Move>)
    requires n >= 1
    ensures |r| == Pow2(n) - 1
    ensures forall i :: 0 <= i < |r| ==> 1 <= r[i].disk <= n
    decreases n
  {
    if n == 1 then
      [Move(1, src, dest)]
    else
      TowerOfHanoi(n - 1, src, dest, helper) + [Move(n, src, helper)] + TowerOfHanoi(n - 1, helper, src, dest)
  }

  /** What the faulty printer reports for each call: the destination for disk 1, the helper otherwise. */
  function Reported(cs: seq<Call>): (r: seq<Move>)
  {
    seq(|cs|, i requires 0 <= i < |cs| => Move(cs[i].disk, cs[i].from, if cs[i].disk == 1 then cs[i].to else cs[i].helper))
  }

  lemma ReportedConcat(a: seq<Call>, c: Call, b: seq<Call>)
    ensures Reported(a + [c] + b) == Reported(a) + [Move(c.disk, c.from, if c.disk == 1 then c.to else c.helper)] + Reported(b)
  {
  }

  /** The faulty printer walks the same calls as the correct generator and only labels them differently. */
  lemma {:induction false} FollowsCalls(n: int, src: Label, helper: Label, dest: Label)
    requires n >= 1
    ensures TowerOfHanoi(n, src, helper, dest) == Reported(Calls(n, src, helper, dest))
    decreases n
  {
    if n > 1 {
      FollowsCalls(n - 1, src, dest, helper);
      FollowsCalls(n - 1, helper, src, dest);
      ReportedConcat(Calls(n - 1, src, dest, helper), Call(n, src, helper, dest), Calls(n - 1, helper, src, dest));
    }
  }

  /**
   * Same number of lines and same (disk, from) order as the correct solution;
   * disk-1 lines agree on the target; every other line reports the helper
   * of the call that printed it.
   */
  lemma SameShape(n: int, src: Label, helper: Label, dest: Label)
    requires n >= 1
    ensures |TowerOfHanoi(n, src, helper, dest)| == |Solve(n, src, helper, dest)|
    ensures forall i :: 0 <= i < |Solve(n, src, helper, dest)| ==>
      var f, c := TowerOfHanoi(n, src, helper, dest)[i], Solve(n, src, helper, dest)[i];
      f.disk == c.disk && f.from == c.from && (c.disk == 1 ==> f.to == c.to)
    ensures forall i :: 0 <= i < |Calls(n, src, helper, dest)| ==>
      var f, k := TowerOfHanoi(n, src, helper, dest)[i], Calls(n, src, helper, dest)[i];
      k.disk >= 2 ==> f.to == k.helper
  {
    FollowsCalls(n, src, helper, dest);
    SolveFollowsCalls(n, src, helper, dest);
  }

  /** With three distinct labels, every line for a disk k >= 2 names a wrong target. */
  lemma Mislabelled(n: int, src: Label, helper: Label, dest: Label)
    requires n >= 1
    requires Distinct3(src, helper, dest)
    ensures forall i :: 0 <= i < |Solve(n, src, helper, dest)| ==>
      var f, c := TowerOfHanoi(n, src, helper, dest)[i], Solve(n, src, helper, dest)[i];
      c.disk >= 2 <==> f.to != c.to
  {
    FollowsCalls(n, src, helper, dest);
    SolveFollowsCalls(n, src, helper, dest);
    CallsKeepLabelsDistinct(n, src, helper, dest);
  }

  /** The top-level line for disk n reports the helper peg, the documented bug. */
  lemma {:induction false} MiddleLineReportsHelper(n: int, src: Label, helper: Label, dest: Label)
    requires n >= 2
    ensures TowerOfHanoi(n, src, helper, dest)[Pow2(n - 1) - 1] == Move(n, src, helper)
  {
    assert |TowerOfHanoi(n - 1, src, dest, helper)| == Pow2(n - 1) - 1;
  }

  /**
   * For n >= 2 the first two printed lines move disk 1 and then disk 2 from
   * the source onto the same peg y, which is the helper or the destination.
   */
  lemma {:induction false} FirstTwoLines(n: int, src: Label, helper: Label, dest: Label) returns (y: Label)
    requires n >= 2
    ensures y == helper || y == dest
    ensures |TowerOfHanoi(n, src, helper, dest)| >= 2
    ensures TowerOfHanoi(n, src, helper, dest)[..2] == [Move(1, src, y), Move(2, src, y)]
    decreases n
  {
    if n == 2 {
      y := helper;
    } else {
      y := FirstTwoLines(n - 1, src, dest, helper);
      var left := TowerOfHanoi(n - 1, src, dest, helper);
      assert TowerOfHanoi(n, src, helper, dest)[..2] == left[..2];
    }
  }
}
