/**
 * An abstraction of the page's three towers a, b and c: each holds the disk
 * numbers stacked on it, bottom first. Moving a disk follows moveDisk
 * in script.js: the named disk is taken out of the from-peg (the first one
 * found, bottom up) and put on top of the to-peg; a disk that is not on the
 * from-peg leaves everything as it was.
 */
module Pegs {
  import opened Wrappers
  import opened Hanoi
  import Solution1

  datatype Pegs = Pegs(a: seq<int>, b: seq<int>, c: seq<int>)

  /** The labels that name a tower element on the page (tower-a, tower-b, tower-c). */
  predicate IsPeg(l: Label)
  {
    l == 'a' || l == 'b' || l == 'c'
  }

  function Get(p: Pegs, l: Label): (r: seq<int>)
    requires IsPeg(l)
  {
    if l == 'a' then p.a else if l == 'b' then p.b else p.c
  }

  function Set(p: Pegs, l: Label, s: seq<int>): (q: Pegs)
    requires IsPeg(l)
  {
    if l == 'a' then p.(a := s) else if l == 'b' then p.(b := s) else p.(c := s)
  }

  /** The disks n, n-1, ..., 1, bottom first, as resetTowers stacks them. */
  function Tower(n: nat): (r: seq<int>)
    ensures |r| == n
    ensures forall i :: 0 <= i < n ==> r[i] == n - i
  {
    if n == 0 then [] else [n] + Tower(n - 1)
  }

  /** The towers after resetTowers(n): every disk on tower a. */
  function Initial(n: nat): (r: Pegs)
  {
    Pegs(Tower(n), [], [])
  }

  /** The solved puzzle: every disk on tower c. */
  function Solved(n: nat): (r: Pegs)
  {
    Pegs([], [], Tower(n))
  }

  /** The position of the first x in s (Array.find over the peg's children), or |s| when there is none. */
  function FirstIndex(s: seq<int>, x: int): (i: nat)
    ensures i <= |s|
    ensures i < |s| ==> s[i] == x
    ensures forall j :: 0 <= j < i ==> s[j] != x
  {
    if s == [] then 0 else if s[0] == x then 0 else 1 + FirstIndex(s[1..], x)
  }

  /** s without its first x; s itself when x does not occur. */
  function RemoveFirst(s: seq<int>, x: int): (r: seq<int>)
    ensures x !in s ==> r == s
    ensures x in s ==> |r| == |s| - 1 && multiset(r) == multiset(s) - multiset{x}
    ensures x in s ==> exists i :: 0 <= i < |s| && s[i] == x && x !in s[..i] && r == s[..i] + s[i + 1..]
  {
    var i := FirstIndex(s, x);
    if i == |s| then s
    else
      assert s == s[..i] + [s[i]] + s[i + 1..];
      s[..i] + s[i + 1..]
  }

  /** moveDisk(m.disk, m.from, m.to) on the abstract towers. */
  function Apply(p: Pegs, m: Move): (q: Pegs)
    requires IsPeg(m.from) && IsPeg(m.to)
  {
    if m.disk !in Get(p, m.from) then p
    else
      var removed := Set(p, m.from, RemoveFirst(Get(p, m.from), m.disk));
      Set(removed, m.to, Get(removed, m.to) + [m.disk])
  }

  /**
   * When the disk is on the from-peg it leaves that peg (its first occurrence)
   * and ends on top of the to-peg; the third peg is untouched; when it is not
   * on the from-peg nothing changes.
   */
  lemma ApplyEffect(p: Pegs, m: Move)
    requires IsPeg(m.from) && IsPeg(m.to)
    ensures m.disk !in Get(p, m.from) ==> Apply(p, m) == p
    ensures m.disk in Get(p, m.from) ==>
      var top := Get(Apply(p, m), m.to);
      |top| > 0 && top[|top| - 1] == m.disk
    ensures m.disk in Get(p, m.from) && m.from != m.to ==>
      Get(Apply(p, m), m.from) == RemoveFirst(Get(p, m.from), m.disk) &&
      Get(Apply(p, m), m.to) == Get(p, m.to) + [m.disk]
    ensures m.disk in Get(p, m.from) && m.from == m.to ==>
      Get(Apply(p, m), m.from) == RemoveFirst(Get(p, m.from), m.disk) + [m.disk]
    ensures forall l :: IsPeg(l) && l != m.from && l != m.to ==> Get(Apply(p, m), l) == Get(p, l)
  {
  }

  /**
   * A move of the puzzle's rules: two different towers, the disk is the top
   * of the from-tower, and the to-tower is empty or has a larger disk on top.
   */
  predicate Legal(p: Pegs, m: Move)
  {
    IsPeg(m.from) && IsPeg(m.to) && m.from != m.to &&
    |Get(p, m.from)| > 0 && Get(p, m.from)[|Get(p, m.from)| - 1] == m.disk &&
    (|Get(p, m.to)| == 0 || Get(p, m.to)[|Get(p, m.to)| - 1] > m.disk)
  }

  /** Replays the moves in order; None as soon as one is not legal. */
  function Run(p: Pegs, ms: seq<Move>): (r: Option<Pegs>)
    decreases |ms|
  {
    if ms == [] then Some(p)
    else if Legal(p, ms[0]) then Run(Apply(p, ms[0]), ms[1..])
    else None
  }

  lemma {:induction false} RunConcat(p: Pegs, a: seq<Move>, b: seq<Move>)
    ensures Run(p, a + b) == match Run(p, a) case None => None case Some(q) => Run(q, b)
    decreases |a|
  {
    if a == [] {
      assert a + b == b;
    } else {
      assert (a + b)[0] == a[0];
      assert (a + b)[1..] == a[1..] + b;
      if Legal(p, a[0]) {
        RunConcat(Apply(p, a[0]), a[1..], b);
      }
    }
  }

  /** Replaying a + [m] + b is replaying the three parts one after the other. */
  lemma RunThree(p: Pegs, a: seq<Move>, m: Move, b: seq<Move>, q: Pegs, r: Pegs, t: Pegs)
    requires Run(p, a) == Some(q) && Run(q, [m]) == Some(r) && Run(r, b) == Some(t)
    ensures Run(p, a + [m] + b) == Some(t)
  {
    RunConcat(p, a, [m]);
    RunConcat(p, a + [m], b);
  }

  /** Every element of s is a disk larger than n. */
  predicate Above(s: seq<int>, n: int)
  {
    forall i :: 0 <= i < |s| ==> s[i] > n
  }

  lemma AboveLower(s: seq<int>, n: int, m: int)
    requires Above(s, n) && m <= n
    ensures Above(s, m)
  {
  }

  lemma AboveAppend(s: seq<int>, x: int, n: int)
    requires Above(s, n) && x > n
    ensures Above(s + [x], n)
  {
  }

  /** A legal move of a disk that is not also further down its peg pops it and pushes it. */
  lemma LegalIsPopPush(p: Pegs, m: Move)
    requires Legal(p, m)
    requires forall j :: 0 <= j < |Get(p, m.from)| - 1 ==> Get(p, m.from)[j] != m.disk
    ensures
      var s := Get(p, m.from);
      Apply(p, m) == Set(Set(p, m.from, s[..|s| - 1]), m.to, Get(p, m.to) + [m.disk])
  {
    var s := Get(p, m.from);
    assert s[|s| - 1] == m.disk;
    assert FirstIndex(s, m.disk) == |s| - 1;
    assert s[..|s| - 1] + s[|s|..] == s[..|s| - 1];
  }

  lemma RunOne(p: Pegs, m: Move)
    requires Legal(p, m)
    ensures Run(p, [m]) == Some(Apply(p, m))
  {
    assert [m][1..] == [];
  }

  /** Disk n leaves the top of the source for a destination holding only larger disks. */
  lemma MoveLargest(p: Pegs, n: int, source: Label, helper: Label, destination: Label, base: seq<int>)
    requires Distinct3(source, helper, destination)
    requires IsPeg(source) && IsPeg(helper) && IsPeg(destination)
    requires Get(p, source) == base + [n]
    requires Above(base, n) && Above(Get(p, destination), n)
    ensures Run(p, [Move(n, source, destination)]).Some?
    ensures Get(Run(p, [Move(n, source, destination)]).value, source) == base
    ensures Get(Run(p, [Move(n, source, destination)]).value, helper) == Get(p, helper)
    ensures Get(Run(p, [Move(n, source, destination)]).value, destination) == Get(p, destination) + [n]
  {
    var big := Move(n, source, destination);
    assert Legal(p, big);
    LegalIsPopPush(p, big);
    assert Get(p, source)[..|Get(p, source)| - 1] == base;
    RunOne(p, big);
  }

  /** The one-disk case of RunSolve: a single legal move of disk 1. */
  lemma RunSolveOne(source: Label, helper: Label, destination: Label, p: Pegs, base: seq<int>) returns (q: Pegs)
    requires Distinct3(source, helper, destination)
    requires IsPeg(source) && IsPeg(helper) && IsPeg(destination)
    requires Get(p, source) == base + Tower(1)
    requires Above(base, 1) && Above(Get(p, destination), 1)
    ensures Run(p, Solve(1, source, helper, destination)) == Some(q)
    ensures Get(q, source) == base && Get(q, helper) == Get(p, helper)
    ensures Get(q, destination) == Get(p, destination) + Tower(1)
  {
    assert Tower(1) == [1];
    assert Solve(1, source, helper, destination) == [Move(1, source, destination)];
    MoveLargest(p, 1, source, helper, destination, base);
    q := Run(p, [Move(1, source, destination)]).value;
  }

  /** The n-1 smaller disks on top of base + [n] satisfy what the first recursive call needs. */
  lemma SplitTower(base: seq<int>, n: int, other: seq<int>, more: seq<int>)
    requires n >= 2
    requires Above(base, n) && Above(other, n) && Above(more, n)
    ensures base + Tower(n) == (base + [n]) + Tower(n - 1)
    ensures Above(base + [n], n - 1) && Above(other, n - 1) && Above(more, n - 1)
    ensures Above(more + [n], n - 1) && Above(base, n - 1)
    ensures more + Tower(n) == (more + [n]) + Tower(n - 1)
  {
    assert Tower(n) == [n] + Tower(n - 1);
    AboveLower(other, n, n - 1);
    AboveLower(more, n, n - 1);
    AboveLower(base, n, n - 1);
    AboveAppend(base, n, n - 1);
    AboveAppend(more, n, n - 1);
  }

  /** The three parts of Solve(n) replayed one after the other. */
  lemma ComposeSolve(n: int, source: Label, helper: Label, destination: Label, p: Pegs, q: Pegs, r: Pegs, t: Pegs)
    requires n >= 2
    requires Run(p, Solve(n - 1, source, destination, helper)) == Some(q)
    requires Run(q, [Move(n, source, destination)]) == Some(r)
    requires Run(r, Solve(n - 1, helper, source, destination)) == Some(t)
    ensures Run(p, Solve(n, source, helper, destination)) == Some(t)
  {
    RunThree(p, Solve(n - 1, source, destination, helper), Move(n, source, destination), Solve(n - 1, helper, source, destination), q, r, t);
  }

  /**
   * Solving n disks on top of the source tower: when the n smallest disks sit
   * on top of base on the source, and every other disk is larger than n, the
   * correct move list is legal throughout and moves those n disks onto the
   * destination, leaving the helper as it was.
   */
  lemma {:induction false} RunSolve(n: int, source: Label, helper: Label, destination: Label, p: Pegs, base: seq<int>) returns (t: Pegs)
    requires n >= 1
    requires Distinct3(source, helper, destination)
    requires IsPeg(source) && IsPeg(helper) && IsPeg(destination)
    requires Get(p, source) == base + Tower(n)
    requires Above(base, n) && Above(Get(p, helper), n) && Above(Get(p, destination), n)
    ensures Run(p, Solve(n, source, helper, destination)) == Some(t)
    ensures Get(t, source) == base && Get(t, helper) == Get(p, helper)
    ensures Get(t, destination) == Get(p, destination) + Tower(n)
    decreases n
  {
    if n == 1 {
      t := RunSolveOne(source, helper, destination, p, base);
    } else {
      SplitTower(base, n, Get(p, helper), Get(p, destination));
      var q := RunSolve(n - 1, source, destination, helper, p, base + [n]);
      MoveLargest(q, n, source, helper, destination, base);
      var r := Run(q, [Move(n, source, destination)]).value;
      t := RunSolve(n - 1, helper, source, destination, r, Get(p, helper));
      ComposeSolve(n, source, helper, destination, p, q, r, t);
      assert Get(r, destination) == Get(p, destination) + [n];
      assert Get(t, destination) == (Get(p, destination) + [n]) + Tower(n - 1);
    }
  }

  /** Replaying the page's move list on the reset towers is legal at every step and ends solved. */
  lemma ReplaySolves(n: int)
    requires n >= 1
    ensures Run(Initial(n), Solve(n, 'a', 'b', 'c')) == Some(Solved(n))
  {
    assert Initial(n).a == [] + Tower(n);
    var r := RunSolve(n, 'a', 'b', 'c', Initial(n), []);
    assert r == Pegs(Get(r, 'a'), Get(r, 'b'), Get(r, 'c'));
  }

  /** Disk 1 and then disk 2 from the same tower onto the same empty tower: the second move is refused. */
  lemma SecondOnFirstFails(p: Pegs, from: Label, y: Label, rest: seq<int>)
    requires IsPeg(from) && IsPeg(y) && from != y
    requires Get(p, from) == rest + [2, 1] && Get(p, y) == [] && Above(rest, 2)
    ensures Run(p, [Move(1, from, y), Move(2, from, y)]) == None
  {
    var first := Move(1, from, y);
    var s := Get(p, from);
    assert Legal(p, first);
    assert forall j :: 0 <= j < |s| - 1 ==> s[j] != 1 by {
      forall j | 0 <= j < |s| - 1
        ensures s[j] != 1
      {
        if j < |rest| {
          assert s[j] == rest[j];
        } else {
          assert s[j] == 2;
        }
      }
    }
    LegalIsPopPush(p, first);
    var q := Apply(p, first);
    assert Get(q, y) == [1];
    assert !Legal(q, Move(2, from, y));
    assert [first, Move(2, from, y)][1..] == [Move(2, from, y)];
  }

  /**
   * Replaying what the faulty generator prints fails for every n >= 2: its
   * second line puts disk 2 on the peg that just received disk 1.
   */
  lemma FaultyReplayFails(n: int)
    requires n >= 2
    ensures Run(Initial(n), Solution1.TowerOfHanoi(n, 'a', 'b', 'c')) == None
  {
    var ms := Solution1.TowerOfHanoi(n, 'a', 'b', 'c');
    var y := Solution1.FirstTwoLines(n, 'a', 'b', 'c');
    var t := Tower(n);
    TowerEndsWithTwoOne(n);
    SecondOnFirstFails(Initial(n), 'a', y, t[..n - 2]);
    assert ms == ms[..2] + ms[2..];
    RunConcat(Initial(n), ms[..2], ms[2..]);
  }

  /** The top two disks of a full tower are 2 and 1, on larger ones. */
  lemma TowerEndsWithTwoOne(n: int)
    requires n >= 2
    ensures Tower(n) == Tower(n)[..n - 2] + [2, 1] && Above(Tower(n)[..n - 2], 2)
  {
    var t := Tower(n);
    assert t[n - 2] == 2 && t[n - 1] == 1;
  }

  /** Every tower is stacked largest first: each disk rests on larger ones. */
  predicate Descending(s: seq<int>)
  {
    forall i, j :: 0 <= i < j < |s| ==> s[i] > s[j]
  }

  predicate WellStacked(p: Pegs)
  {
    Descending(p.a) && Descending(p.b) && Descending(p.c)
  }

  lemma TowerDescending(n: nat)
    ensures Descending(Tower(n))
  {
  }

  /** A legal move keeps every tower stacked largest first. */
  lemma LegalKeepsStacked(p: Pegs, m: Move)
    requires WellStacked(p) && Legal(p, m)
    ensures WellStacked(Apply(p, m))
  {
    var s := Get(p, m.from);
    var t := Get(p, m.to);
    assert Descending(s) && Descending(t);
    LegalIsPopPush(p, m);
    var q := Apply(p, m);
    assert Get(q, m.from) == s[..|s| - 1];
    assert Get(q, m.to) == t + [m.disk];
    DescendingPush(t, m.disk);
    forall l | IsPeg(l) && l != m.from && l != m.to
      ensures Descending(Get(q, l))
    {
      assert Get(q, l) == Get(p, l);
    }
    StackedByLabel(q, m.from, m.to);
  }

  lemma DescendingPush(t: seq<int>, x: int)
    requires Descending(t) && (|t| == 0 || t[|t| - 1] > x)
    ensures Descending(t + [x])
  {
    forall i, j | 0 <= i < j < |t + [x]|
      ensures (t + [x])[i] > (t + [x])[j]
    {
      if j == |t| {
        assert i == |t| - 1 || t[i] > t[|t| - 1];
      }
    }
  }

  /** WellStacked checked tower by tower when two distinct towers are named. */
  lemma StackedByLabel(q: Pegs, x: Label, y: Label)
    requires IsPeg(x) && IsPeg(y) && x != y
    requires Descending(Get(q, x)) && Descending(Get(q, y))
    requires forall l :: IsPeg(l) && l != x && l != y ==> Descending(Get(q, l))
    ensures WellStacked(q)
  {
    assert IsPeg('a') && IsPeg('b') && IsPeg('c');
  }

  /** Legal play never puts a disk on a smaller one. */
  lemma {:induction false} RunKeepsStacked(p: Pegs, ms: seq<Move>)
    requires WellStacked(p) && Run(p, ms).Some?
    ensures WellStacked(Run(p, ms).value)
    decreases |ms|
  {
    if ms != [] {
      LegalKeepsStacked(p, ms[0]);
      RunKeepsStacked(Apply(p, ms[0]), ms[1..]);
    }
  }
}
