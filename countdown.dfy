/**
 * The timer coroutine `StartTimer` as the finite sequence of what it does:
 * sounds started and stopped, values displayed, one-second waits, and the
 * final hiding of the panel.
 */
module Countdown {

  datatype TimerStep =
    | PlayTick          // sndTimerTick.Play()
    | Show(seconds: int) // txtTimer.text = "{seconds}s"
    | Wait              // yield return new WaitForSeconds(1)
    | StopTick          // sndTimerTick.Stop()
    | PlayEnded         // sndTimerEnded.Play()
    | HidePanel         // panelTimer.SetActive(false)

  /** The value the countdown lingers down to after reaching zero. */
  const LingerFloor := -4

  /** Steps of the first loop, counting down from `t` to 0. */
  function CountdownSteps(t: int): seq<TimerStep>
    decreases t
  {
    if t <= 0 then [] else [Wait, Show(t - 1)] + CountdownSteps(t - 1)
  }

  /** Steps of the second loop: `k` silent one-second waits. */
  function LingerSteps(k: int): seq<TimerStep>
    decreases k
  {
    if k <= 0 then [] else [Wait] + LingerSteps(k - 1)
  }

  /** The counting part: start the tick, show the start value, then the first loop. */
  function Counting(timer: int): seq<TimerStep> {
    [PlayTick, Show(timer)] + CountdownSteps(timer)
  }

  /** Everything `StartTimer(timer)` does, in order (lines 435-454). */
  function TimerTrace(timer: int): seq<TimerStep> {
    var reached := if timer > 0 then 0 else timer;
    Counting(timer) + [StopTick, PlayEnded] + LingerSteps(reached - LingerFloor) + [HidePanel]
  }

  /** `StartTimer` with its two while loops, recording each step. */
  method StartTimer(timer: int) returns (trace: seq<TimerStep>)
    ensures trace == TimerTrace(timer)
  {
    var t := timer;
    trace := [PlayTick, Show(t)];
    assert Counting(timer) == trace + CountdownSteps(timer);
    while t > 0
      invariant timer > 0 ==> 0 <= t <= timer
      invariant timer <= 0 ==> t == timer
      invariant trace + CountdownSteps(t) == [PlayTick, Show(timer)] + CountdownSteps(timer)
      decreases t
    {
      trace := trace + [Wait];
      t := t - 1;
      trace := trace + [Show(t)];
    }
    assert CountdownSteps(t) == [];
    assert trace == Counting(timer);
    trace := trace + [StopTick, PlayEnded];
    ghost var reached := t;
    assert reached == if timer > 0 then 0 else timer;
    ghost var prefix := trace;
    while t > LingerFloor
      invariant reached >= LingerFloor ==> LingerFloor <= t <= reached
      invariant reached < LingerFloor ==> t == reached
      invariant trace + LingerSteps(t - LingerFloor) == prefix + LingerSteps(reached - LingerFloor)
      decreases t - LingerFloor
    {
      t := t - 1;
      trace := trace + [Wait];
    }
    assert LingerSteps(t - LingerFloor) == [];
    assert trace == prefix + LingerSteps(reached - LingerFloor);
    trace := trace + [HidePanel];
  }

  /** The values a trace displays, in order. */
  function Displayed(trace: seq<TimerStep>): seq<int> {
    if trace == [] then []
    else (if trace[0].Show? then [trace[0].seconds] else []) + Displayed(trace[1..])
  }

  /** How often a step occurs in a trace. */
  function Count(trace: seq<TimerStep>, step: TimerStep): nat {
    if trace == [] then 0
    else (if trace[0] == step then 1 else 0) + Count(trace[1..], step)
  }

  /** n, n-1, ..., 0. */
  function Descending(n: nat): (r: seq<int>)
    ensures |r| == n + 1
    ensures forall k | 0 <= k < |r| :: r[k] == n - k
  {
    if n == 0 then [0] else [n] + Descending(n - 1)
  }

  lemma {:induction false} DisplayedAppend(a: seq<TimerStep>, b: seq<TimerStep>)
    ensures Displayed(a + b) == Displayed(a) + Displayed(b)
  {
    if a == [] {
      assert a + b == b;
    } else {
      assert (a + b)[1..] == a[1..] + b;
      DisplayedAppend(a[1..], b);
    }
  }

  lemma {:induction false} CountAppend(a: seq<TimerStep>, b: seq<TimerStep>, step: TimerStep)
    ensures Count(a + b, step) == Count(a, step) + Count(b, step)
  {
    if a == [] {
      assert a + b == b;
    } else {
      assert (a + b)[1..] == a[1..] + b;
      CountAppend(a[1..], b, step);
    }
  }

  /** The first loop shows t-1, ..., 0 and waits t times, with no other steps. */
  lemma {:induction false} CountdownShape(t: nat)
    ensures t > 0 ==> Displayed(CountdownSteps(t)) == Descending(t - 1)
    ensures t == 0 ==> Displayed(CountdownSteps(t)) == []
    ensures Count(CountdownSteps(t), Wait) == t
    ensures Count(CountdownSteps(t), PlayTick) == 0 && Count(CountdownSteps(t), StopTick) == 0
    ensures Count(CountdownSteps(t), PlayEnded) == 0 && Count(CountdownSteps(t), HidePanel) == 0
  {
    if t > 0 {
      var front, rest := [Wait, Show(t - 1)], CountdownSteps(t - 1);
      CountdownShape(t - 1);
      DisplayedAppend(front, rest);
      CountAppend(front, rest, Wait);
      CountAppend(front, rest, PlayTick);
      CountAppend(front, rest, StopTick);
      CountAppend(front, rest, PlayEnded);
      CountAppend(front, rest, HidePanel);
    }
  }

  /** The linger loop only waits. */
  lemma {:induction false} LingerShape(k: nat)
    ensures Displayed(LingerSteps(k)) == []
    ensures Count(LingerSteps(k), Wait) == k
    ensures Count(LingerSteps(k), PlayEnded) == 0
    ensures Count(LingerSteps(k), HidePanel) == 0
  {
    if k > 0 {
      LingerShape(k - 1);
      DisplayedAppend([Wait], LingerSteps(k - 1));
      CountAppend([Wait], LingerSteps(k - 1), Wait);
      CountAppend([Wait], LingerSteps(k - 1), PlayEnded);
      CountAppend([Wait], LingerSteps(k - 1), HidePanel);
    }
  }

  /**
   * A countdown from n >= 0 first starts the tick and displays exactly n,
   * n-1, ..., 0, one second apart, and does nothing else; then it stops the
   * tick, plays the ended sound, lingers four seconds and hides the panel.
   */
  lemma CountdownFromN(n: nat)
    ensures TimerTrace(n) == Counting(n) + [StopTick, PlayEnded, Wait, Wait, Wait, Wait, HidePanel]
    ensures Counting(n)[0] == PlayTick && Count(Counting(n), PlayTick) == 1
    ensures Displayed(Counting(n)) == Descending(n)
    ensures Count(Counting(n), Wait) == n
    ensures Count(Counting(n), StopTick) == 0 && Count(Counting(n), PlayEnded) == 0 && Count(Counting(n), HidePanel) == 0
  {
    var a := [PlayTick, Show(n)];
    var b := CountdownSteps(n);
    assert Counting(n) == a + b;
    assert LingerSteps(4) == [Wait, Wait, Wait, Wait];
    assert TimerTrace(n) == Counting(n) + [StopTick, PlayEnded] + [Wait, Wait, Wait, Wait] + [HidePanel];
    CountdownShape(n);
    DisplayedAppend(a, b);
    assert a[1..] == [Show(n)] && [Show(n)][1..] == [];
    assert Displayed(a) == [n];
    assert n > 0 ==> [n] + Descending(n - 1) == Descending(n);
    CountAppend(a, b, Wait);
    CountAppend(a, b, PlayTick);
    CountAppend(a, b, StopTick);
    CountAppend(a, b, PlayEnded);
    CountAppend(a, b, HidePanel);
  }
}
