/** The process-wide pacing guard: callers reserve a slot under a lock and sleep
    until it outside the lock (OpenAIRunner.waitForTurn). */
module Pacing {

  class Limiter {
    const minInterval: int
    var nextRequest: int

    constructor (minInterval: int, nextRequest: int)
      ensures this.minInterval == minInterval && this.nextRequest == nextRequest
    {
      this.minInterval, this.nextRequest := minInterval, nextRequest;
    }

    /** The part of waitForTurn under the lock: the slot to sleep until. A caller
        that is cancelled while it sleeps has already reserved. */
    method Reserve(now: int) returns (slot: int)
      modifies this`nextRequest
      ensures minInterval <= 0 ==> slot == now && nextRequest == old(nextRequest)
      ensures minInterval > 0 ==> slot == Slot(old(nextRequest), now) && nextRequest == slot + minInterval
    {
      if minInterval <= 0 { return now; }
      slot := now;
      if nextRequest > slot {
        slot := nextRequest;
      }
      nextRequest := slot + minInterval;
    }
  }

  function Slot(next: int, now: int): int {
    if next > now then next else now
  }

  /** The slots handed out, in the order the callers take the lock: `clock[i]` is
      whatever the i-th of them read, in no particular order. */
  function Slots(next: int, interval: int, clock: seq<int>): (slots: seq<int>)
    ensures |slots| == |clock|
  {
    if clock == [] then []
    else
      var front := Slots(next, interval, clock[..|clock| - 1]);
      front + [Slot(Next(next, interval, front), clock[|clock| - 1])]
  }

  function Next(next: int, interval: int, slots: seq<int>): int {
    if slots == [] then next else slots[|slots| - 1] + interval
  }

  lemma {:induction false} SlotsAt(next: int, interval: int, clock: seq<int>, i: nat)
    requires i < |clock|
    ensures Slots(next, interval, clock)[..i] == Slots(next, interval, clock[..i])
    ensures Slots(next, interval, clock)[i] == Slot(Next(next, interval, Slots(next, interval, clock[..i])), clock[i])
  {
    var front := clock[..|clock| - 1];
    if i < |front| {
      SlotsAt(next, interval, front, i);
      assert front[..i] == clock[..i];
    } else {
      assert clock[..i] == front;
    }
  }

  /** Any two callers are spaced by the interval for each step between them, and
      no slot lies before its caller's clock. */
  lemma {:induction false} SlotsAreSpaced(next: int, interval: int, clock: seq<int>, i: nat, j: nat)
    requires interval > 0 && i <= j < |clock|
    ensures Slots(next, interval, clock)[j] >= Slots(next, interval, clock)[i] + (j - i) * interval
    ensures Slots(next, interval, clock)[j] >= clock[j]
    decreases j
  {
    SlotsAt(next, interval, clock, j);
    if i < j {
      SlotsAreSpaced(next, interval, clock, i, j - 1);
      SlotsAt(next, interval, clock, j);
      assert Slots(next, interval, clock)[..j][j - 1] == Slots(next, interval, clock)[j - 1];
      assert (j - i) * interval == (j - 1 - i) * interval + interval;
    }
  }

  /** So a stretch of time shorter than k intervals holds at most k slots. */
  lemma RateIsBounded(next: int, interval: int, clock: seq<int>, i: nat, j: nat, k: nat)
    requires interval > 0 && i <= j < |clock|
    requires Slots(next, interval, clock)[j] - Slots(next, interval, clock)[i] < k * interval
    ensures j - i + 1 <= k
  {
    SlotsAreSpaced(next, interval, clock, i, j);
    ScaleKeepsOrder(j - i, k, interval);
  }

  lemma ScaleKeepsOrder(a: int, b: int, c: int)
    requires c > 0
    ensures a * c < b * c <==> a < b
  {
    if a >= b { assert (a - b) * c >= 0; }
  }

  /** A lower bound on the j-th slot: the limiter as it started, or an earlier (or
      the same) caller's clock, plus the intervals in between. */
  function Bound(next: int, interval: int, clock: seq<int>, i: int, j: nat): int
    requires -1 <= i <= j < |clock|
  {
    if i == -1 then next + j * interval else clock[i] + (j - i) * interval
  }

  ghost predicate IsLeastAbove(slot: int, next: int, interval: int, clock: seq<int>, j: nat)
    requires j < |clock|
  {
    && (forall i :: -1 <= i <= j ==> Bound(next, interval, clock, i, j) <= slot)
    && (exists i :: -1 <= i <= j && Bound(next, interval, clock, i, j) == slot)
  }

  /** No slot is later than it must be: it is the least time that keeps every
      spacing. In particular an idle limiter hands out the caller's own clock. */
  lemma {:induction false} SlotsAreEarliest(next: int, interval: int, clock: seq<int>, j: nat)
    requires interval > 0 && j < |clock|
    ensures IsLeastAbove(Slots(next, interval, clock)[j], next, interval, clock, j)
  {
    var slots := Slots(next, interval, clock);
    SlotsAt(next, interval, clock, j);
    assert Bound(next, interval, clock, j, j) == clock[j];
    if j == 0 {
      assert slots[0] == Slot(next, clock[0]);
      assert Bound(next, interval, clock, -1, 0) == next;
    } else {
      SlotsAreEarliest(next, interval, clock, j - 1);
      assert slots[..j][j - 1] == slots[j - 1];
      assert slots[j] == Slot(slots[j - 1] + interval, clock[j]);
      forall i | -1 <= i <= j - 1
        ensures Bound(next, interval, clock, i, j) == Bound(next, interval, clock, i, j - 1) + interval
      {
        BoundStep(next, interval, clock, i, j);
      }
      var i :| -1 <= i <= j - 1 && Bound(next, interval, clock, i, j - 1) == slots[j - 1];
      assert Bound(next, interval, clock, i, j) == slots[j - 1] + interval;
    }
  }

  lemma BoundStep(next: int, interval: int, clock: seq<int>, i: int, j: nat)
    requires -1 <= i < j < |clock| && 0 <= j - 1
    ensures Bound(next, interval, clock, i, j) == Bound(next, interval, clock, i, j - 1) + interval
  {
    assert j * interval == (j - 1) * interval + interval;
    assert (j - i) * interval == (j - 1 - i) * interval + interval;
  }

  lemma IdleSlotIsNow(next: int, interval: int, clock: seq<int>, j: nat)
    requires interval > 0 && j < |clock|
    requires Next(next, interval, Slots(next, interval, clock[..j])) <= clock[j]
    ensures Slots(next, interval, clock)[j] == clock[j]
  {
    SlotsAt(next, interval, clock, j);
  }
}
