/**
 * The animation schedule of visualDemo in script.js: move i (counting from
 * 0) is shown after (i + 1) delays and the closing message after
 * (len + 1) delays, where the delay is max(500, 3000 / len) milliseconds
 * for a list of len moves.
 */
module Timing {
  import opened Hanoi

  /** What a timer does when it fires: show and perform move index, or announce the end. */
  datatype Event<T> = FireMove(index: nat, item: T) | Complete(total: nat)

  /** A timer armed with setTimeout: its delay in milliseconds from arming, and its callback. */
  datatype Timer<T> = Timer(at: real, event: Event<T>)

  /** Math.max(500, 3000 / len): the adaptive gap between two moves. */
  function Delay(len: nat): (d: real)
    requires len >= 1
    ensures d >= 500.0 && d * len as real >= 3000.0
    ensures d == 500.0 <==> len >= 6
    ensures d == 500.0 || d * len as real == 3000.0
  {
    var share := 3000.0 / len as real;
    assert share * len as real == 3000.0;
    if share > 500.0 then share else 500.0
  }

  /** What visualDemo arms for the moves items: one timer per move, then the closing one. */
  function Schedule<T>(items: seq<T>): (ts: seq<Timer<T>>)
    requires |items| >= 1
    ensures |ts| == |items| + 1
  {
    var d := Delay(|items|);
    seq(|items| + 1, i requires 0 <= i <= |items| =>
      Timer(FireTime(i, d), if i < |items| then FireMove(i, items[i]) else Complete(|items|)))
  }

  /** (i + 1) * delay: when the timer armed i-th goes off. */
  function FireTime(i: nat, d: real): (r: real)
  {
    (i + 1) as real * d
  }

  /**
   * The forEach over the moves followed by the closing setTimeout: the timers
   * armed, in the order they are armed.
   */
  method ArmTimers<T>(items: seq<T>) returns (ts: seq<Timer<T>>)
    requires |items| >= 1
    ensures ts == Schedule(items)
  {
    var d := Delay(|items|);
    ts := [];
    var index := 0;
    while index < |items|
      invariant 0 <= index <= |items|
      invariant |ts| == index
      invariant forall i :: 0 <= i < index ==> ts[i] == Timer(FireTime(i, d), FireMove(i, items[i]))
    {
      ts := ts + [Timer(FireTime(index, d), FireMove(index, items[index]))];
      index := index + 1;
    }
    ts := ts + [Timer(FireTime(|items|, d), Complete(|items|))];
  }

  /**
   * Firing in time order is firing in list order: the move timers carry the
   * moves in order at strictly increasing times, one delay apart, and the
   * closing timer comes after all of them.
   */
  lemma ScheduleInOrder<T>(items: seq<T>)
    requires |items| >= 1
    ensures forall i :: 0 <= i < |items| ==> Schedule(items)[i].event == FireMove(i, items[i])
    ensures Schedule(items)[|items|].event == Complete(|items|)
    ensures forall i, j :: 0 <= i < j <= |items| ==> Schedule(items)[i].at < Schedule(items)[j].at
    ensures forall i :: 0 <= i < |items| ==> Schedule(items)[i + 1].at - Schedule(items)[i].at == Delay(|items|)
  {
    var ts := Schedule(items);
    var d := Delay(|items|);
    forall i, j | 0 <= i < j <= |items|
      ensures ts[i].at < ts[j].at
    {
      Later(i, j, d);
    }
    forall i | 0 <= i < |items|
      ensures ts[i + 1].at - ts[i].at == d
    {
      NextIsOneDelayLater(i, d);
    }
  }

  lemma Later(i: nat, j: nat, d: real)
    requires i < j && d > 0.0
    ensures FireTime(i, d) < FireTime(j, d)
  {
    var gap := (j - i) as real;
    assert gap >= 1.0;
    assert (j + 1) as real * d == (i + 1) as real * d + gap * d;
    assert gap * d >= d;
  }

  lemma NextIsOneDelayLater(i: nat, d: real)
    ensures FireTime(i + 1, d) - FireTime(i, d) == d
  {
    assert (i + 2) as real * d == (i + 1) as real * d + d;
  }

  /** The first move is shown after one delay, at least half a second; the whole replay takes at least three seconds. */
  lemma ReplayDuration<T>(items: seq<T>)
    requires |items| >= 1
    ensures Schedule(items)[0].at >= 500.0
    ensures Schedule(items)[|items|].at > 3000.0
  {
    var d := Delay(|items|);
    assert Schedule(items)[|items|].at == FireTime(|items|, d);
    assert (|items| + 1) as real * d == d * |items| as real + d;
  }

  /** For 1 to 8 disks (1 to 255 moves) the gap is 3000 ms for one disk, 1000 ms for two, and 500 ms from three on. */
  lemma DelayForDisks(n: int)
    requires 1 <= n <= 8
    ensures Delay(Pow2(n) - 1) == if n == 1 then 3000.0 else if n == 2 then 1000.0 else 500.0
  {
    assert Pow2(1) == 2 && Pow2(2) == 4 && Pow2(3) == 8;
    if n >= 3 {
      Pow2AtLeast8(n);
    }
  }

  lemma {:induction false} Pow2AtLeast8(n: int)
    requires n >= 3
    ensures Pow2(n) >= 8
    decreases n
  {
    if n > 3 {
      Pow2AtLeast8(n - 1);
    }
  }
}
