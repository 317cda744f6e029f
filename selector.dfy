/** The threshold selection before the main loop: the button is polled
    every 100 ms; each press advances a wrapping index into the twelve
    thresholds and restarts a four-second window, and the selection ends
    when a window passes without a press. The button is a sequence of
    samples, one per poll; polls past its end read "released". */
module Selector {

  /** The alert thresholds, in dollars. */
  const Thresholds: seq<int> := [10000, 20000, 30000, 40000, 50000, 60000,
                                 70000, 80000, 90000, 100000, 110000, 120000]
  /** The number of thresholds to choose from. */
  const Choices: nat := 12

  /** Threshold `i` of the table, in closed form. */
  function Threshold(i: nat): (t: int)
    requires i < Choices
    ensures 10000 <= t <= 120000 && t % 10000 == 0
  {
    10000 * (i + 1)
  }

  /** The closed form is the table, entry by entry. */
  lemma ThresholdTable()
    ensures |Thresholds| == Choices
    ensures forall i :: 0 <= i < Choices ==> Threshold(i) == Thresholds[i]
  {
  }

  /** The milliseconds without a press that end the selection. */
  const Window: nat := 4000
  /** The milliseconds counted for one poll. */
  const Tick: nat := 100

  /** Poll `k` reads the button pressed. */
  predicate Pressed(p: seq<bool>, k: nat)
  {
    k < |p| && p[k]
  }

  /** `elapsed` after `n` polls: a press restarts it, and every poll,
      the pressing one included, then adds a tick. */
  function Elapsed(p: seq<bool>, n: nat): nat
  {
    if n == 0 then 0
    else (if Pressed(p, n - 1) then 0 else Elapsed(p, n - 1)) + Tick
  }

  /** `elapsed` counts whole ticks, at most one per poll, and at least one
      once a poll has been made. */
  lemma {:induction false} ElapsedTicks(p: seq<bool>, n: nat)
    ensures Elapsed(p, n) % Tick == 0 && Elapsed(p, n) <= Tick * n
    ensures n > 0 ==> Elapsed(p, n) >= Tick
  {
    if n > 0 {
      ElapsedTicks(p, n - 1);
    }
  }

  /** After poll `n` the four seconds have not passed yet. */
  predicate Waiting(p: seq<bool>, n: nat)
  {
    Elapsed(p, n) < Window
  }

  /** `adjustable_index` after `n` polls. */
  function Index(p: seq<bool>, n: nat): (i: nat)
    ensures i < Choices
  {
    if n == 0 then 0
    else if Pressed(p, n - 1) then (Index(p, n - 1) + 1) % Choices
    else Index(p, n - 1)
  }

  /** The number of presses among the first `n` polls. */
  function Presses(p: seq<bool>, n: nat): (k: nat)
    ensures k <= n
  {
    if n == 0 then 0 else Presses(p, n - 1) + (if Pressed(p, n - 1) then 1 else 0)
  }

  /** One more poll, stated at the poll itself. */
  lemma PollStep(p: seq<bool>, n: nat)
    ensures Elapsed(p, n + 1) == (if Pressed(p, n) then 0 else Elapsed(p, n)) + Tick
    ensures Index(p, n + 1) == if Pressed(p, n) then (Index(p, n) + 1) % Choices else Index(p, n)
  {
  }

  /** After k presses the index is k modulo twelve. */
  lemma {:induction false} IndexCountsPresses(p: seq<bool>, n: nat)
    ensures Index(p, n) == Presses(p, n) % Choices
  {
    if n > 0 {
      IndexCountsPresses(p, n - 1);
    }
  }

  /** `elapsed` has reached `k` ticks exactly when the last `k - 1` polls
      were all released. */
  lemma {:induction false} ElapsedQuiet(p: seq<bool>, n: nat, k: nat)
    requires 1 <= k <= n
    ensures Elapsed(p, n) >= Tick * k <==> forall j :: n - k < j < n ==> !Pressed(p, j)
  {
    ElapsedTicks(p, n);
    if k > 1 {
      ElapsedQuiet(p, n - 1, k - 1);
      if Pressed(p, n - 1) {
        assert Elapsed(p, n) == Tick;
      }
    }
  }

  /** The selection ends after exactly `n` polls when the window is full
      then: the last 39 polls were released and poll `n - 40` was the
      last press, or there was no press and this is the 40th poll. */
  lemma WindowFull(p: seq<bool>, n: nat)
    requires n >= 1
    ensures Elapsed(p, n) == Window <==>
      && n >= Window / Tick
      && (forall j :: n - Window / Tick < j < n ==> !Pressed(p, j))
      && (n == Window / Tick || Pressed(p, n - Window / Tick))
  {
    ElapsedTicks(p, n);
    if n >= Window / Tick {
      ElapsedQuiet(p, n, Window / Tick);
      if n > Window / Tick {
        ElapsedQuiet(p, n, Window / Tick + 1);
      }
    }
  }

  /** `elapsed` never passes the window while the loop runs: one tick
      after a value below 4000 is at most 4000. */
  lemma ElapsedWithinWindow(p: seq<bool>, n: nat)
    requires Elapsed(p, n) < Window
    ensures Elapsed(p, n + 1) <= Window
  {
    ElapsedTicks(p, n);
    var e := Elapsed(p, n);
    assert e == e / Tick * Tick;
  }

  /** Forty polls past the last sample always fill the window. */
  lemma SelectionEnds(p: seq<bool>)
    ensures Elapsed(p, |p| + Window / Tick) >= Window
  {
    ElapsedQuiet(p, |p| + Window / Tick, Window / Tick);
  }

  /** So a loop still waiting has made fewer than forty polls past the
      last sample. */
  lemma WaitingBound(p: seq<bool>, n: nat)
    requires n <= |p| + Window / Tick && Waiting(p, n)
    ensures n < |p| + Window / Tick
  {
    SelectionEnds(p);
  }
}
