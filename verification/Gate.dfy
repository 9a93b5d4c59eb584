/**
 The crates.io rate gate (`ApiGate` of `src/web/crates_io.rs`): callers reserve
 slots at least `gap` apart under a lock, in arrival order. Instants are integers.
 */
module Gate {
  import opened Prelude

  /** The slot of the last of `arrivals`, each caller having reserved in turn. */
  function LastSlot(arrivals: seq<int>, gap: nat): int
    requires arrivals != []
  {
    var last := arrivals[|arrivals| - 1];
    if |arrivals| == 1 then last else Max(LastSlot(arrivals[..|arrivals| - 1], gap) + gap, last)
  }

  function SlotOf(arrivals: seq<int>, gap: nat, k: nat): int
    requires k < |arrivals|
  {
    LastSlot(arrivals[..k + 1], gap)
  }

  class ApiGate {
    const gap: nat
    var nextFree: Option<int>
    /** When each caller so far took the lock. */
    ghost var arrivals: seq<int>

    ghost predicate Valid()
      reads this
    {
      nextFree == if arrivals == [] then None else Some(LastSlot(arrivals, gap) + gap)
    }

    constructor (gap: nat)
      ensures Valid() && arrivals == [] && this.gap == gap
    {
      this.gap := gap;
      nextFree, arrivals := None, [];
    }

    /** Reserve this caller's slot; the caller then sleeps until it, outside the lock. */
    method Wait(now: int) returns (slot: int)
      requires Valid()
      modifies this
      ensures Valid() && arrivals == old(arrivals) + [now]
      ensures slot == SlotOf(arrivals, gap, |arrivals| - 1)
    {
      slot := match nextFree case Some(next) => Max(next, now) case None => now;
      nextFree := Some(slot + gap);
      assert (arrivals + [now])[..|arrivals|] == arrivals;
      arrivals := arrivals + [now];
      assert arrivals[..|arrivals|] == arrivals;
    }
  }

  // ----- The slots as a schedule -----

  lemma SlotStep(arrivals: seq<int>, gap: nat, k: nat)
    requires k + 1 < |arrivals|
    ensures SlotOf(arrivals, gap, k + 1) == Max(SlotOf(arrivals, gap, k) + gap, arrivals[k + 1])
  {
    assert arrivals[..k + 2][..k + 1] == arrivals[..k + 1];
  }

  lemma Waited(n: nat, gap: nat)
    ensures (n + 1) * gap == n * gap + gap
  {
  }

  /** No slot precedes any earlier arrival plus the gaps since. */
  lemma {:induction false} SlotCoversArrivals(arrivals: seq<int>, gap: nat, j: nat, k: nat)
    requires j <= k < |arrivals|
    ensures arrivals[j] + (k - j) * gap <= SlotOf(arrivals, gap, k)
    decreases k
  {
    if j < k {
      SlotCoversArrivals(arrivals, gap, j, k - 1);
      SlotStep(arrivals, gap, k - 1);
      Waited(k - 1 - j, gap);
    } else if k > 0 {
      SlotStep(arrivals, gap, k - 1);
    }
  }

  /** Some arrival plus the gaps since is the slot: with the bound above, the slot is their maximum. */
  lemma {:induction false} SlotIsAttained(arrivals: seq<int>, gap: nat, k: nat) returns (j: nat)
    requires k < |arrivals|
    ensures j <= k && SlotOf(arrivals, gap, k) == arrivals[j] + (k - j) * gap
  {
    if k == 0 {
      j := 0;
    } else {
      SlotStep(arrivals, gap, k - 1);
      if SlotOf(arrivals, gap, k) == arrivals[k] {
        j := k;
      } else {
        j := SlotIsAttained(arrivals, gap, k - 1);
        Waited(k - 1 - j, gap);
      }
    }
  }

  /** A first-come schedule that starts nobody early and keeps the gap. */
  predicate IsSchedule(times: seq<int>, arrivals: seq<int>, gap: nat) {
    && |times| == |arrivals|
    && (forall k :: 0 <= k < |times| ==> arrivals[k] <= times[k])
    && forall k :: 0 <= k < |times| - 1 ==> times[k] + gap <= times[k + 1]
  }

  function Slots(arrivals: seq<int>, gap: nat): seq<int> {
    seq(|arrivals|, k requires 0 <= k < |arrivals| => SlotOf(arrivals, gap, k))
  }

  lemma SlotsAreASchedule(arrivals: seq<int>, gap: nat)
    ensures IsSchedule(Slots(arrivals, gap), arrivals, gap)
  {
    var slots := Slots(arrivals, gap);
    forall k | 0 <= k < |slots|
      ensures arrivals[k] <= slots[k]
      ensures k < |slots| - 1 ==> slots[k] + gap <= slots[k + 1]
    {
      if k < |slots| - 1 {
        SlotStep(arrivals, gap, k);
      }
      if k > 0 {
        SlotStep(arrivals, gap, k - 1);
      }
    }
  }

  /** No such schedule gives any caller an earlier time. */
  lemma {:induction false} SlotsAreEarliest(times: seq<int>, arrivals: seq<int>, gap: nat, k: nat)
    requires IsSchedule(times, arrivals, gap) && k < |arrivals|
    ensures SlotOf(arrivals, gap, k) <= times[k]
  {
    if k > 0 {
      SlotsAreEarliest(times, arrivals, gap, k - 1);
      SlotStep(arrivals, gap, k - 1);
    }
  }
}
