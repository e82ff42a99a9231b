/** The promises of the ring delayer, over every run from its initial state. */
module RingTheorems {
  import opened Basics
  import opened RingProtocol
  import opened RingProofs

  lemma RunInv(delay: int, size: nat, ids: set<nat>, now: int, steps: seq<Step>)
    requires size > 0 && Run(Init(delay, size, ids, now), steps)
    ensures Inv(After(Init(delay, size, ids, now), steps))
    ensures |After(Init(delay, size, ids, now), steps).ring| == size
  {
    InitInv(delay, size, ids, now);
    RunKeepsInv(Init(delay, size, ids, now), steps);
    RunKeepsSize(Init(delay, size, ids, now), steps);
  }

  lemma {:induction false} RunKeepsSize(s: State, steps: seq<Step>)
    requires Run(s, steps)
    ensures |After(s, steps).ring| == |s.ring| && After(s, steps).delay == s.delay
    decreases steps
  {
    if steps != [] {
      RunKeepsSize(Do(s, steps[0]), steps[1..]);
    }
  }

  /** Slot i holds a chunk that is neither popped nor still to come. */
  ghost predicate InWindow(s: State, i: nat) {
    |s.ring| > 0 && exists k :: s.popped <= k < |s.stored| && Slot(k, |s.ring|) == i
  }

  /** The occupied slots are exactly the cyclic window from head to tail. */
  lemma OccupiedSlots(delay: int, size: nat, ids: set<nat>, now: int, steps: seq<Step>, i: nat)
    requires size > 0 && i < size && Run(Init(delay, size, ids, now), steps)
    ensures var t := After(Init(delay, size, ids, now), steps);
            && |t.ring| == size && t.head == Slot(t.popped, size) && t.tail == Slot(|t.stored|, size)
            && 0 <= Occupied(t) <= size
            && (t.ring[i].Some? <==> InWindow(t, i))
  {
    RunInv(delay, size, ids, now, steps);
    var t := After(Init(delay, size, ids, now), steps);
    var k := SlotCover(i, t.popped, size);
    if k < |t.stored| {
      assert t.ring[Slot(k, size)] == Some(t.stored[k].bytes);
    } else {
      assert t.ring[Slot(k, size)] == None;
      if j :| t.popped <= j < |t.stored| && Slot(j, size) == i {
        SlotInjective(j, k, size);
      }
    }
  }

  /** Occupied slots, tokens, writers about to notify and the consumer's token always balance. */
  lemma TokenBalance(delay: int, size: nat, ids: set<nat>, now: int, steps: seq<Step>)
    requires size > 0 && Run(Init(delay, size, ids, now), steps)
    ensures var t := After(Init(delay, size, ids, now), steps);
            Occupied(t) == t.tokens + |StoredIn(t.writers)| + InHand(t.consumer)
  {
    RunInv(delay, size, ids, now, steps);
  }

  /** A writer that has stored its chunk can send on the channel at once. */
  lemma NotifyNeverBlocks(delay: int, size: nat, ids: set<nat>, now: int, steps: seq<Step>, w: nat)
    requires size > 0 && Run(Init(delay, size, ids, now), steps)
    requires var t := After(Init(delay, size, ids, now), steps); w in t.writers && t.writers[w].Stored?
    ensures Enabled(After(Init(delay, size, ids, now), steps), Notify(w))
  {
    RunInv(delay, size, ids, now, steps);
    var t := After(Init(delay, size, ids, now), steps);
    assert w in StoredIn(t.writers);
  }

  /** The consumer never pops an empty slot. */
  lemma NeverPopsEmpty(delay: int, size: nat, ids: set<nat>, now: int, steps: seq<Step>)
    requires size > 0 && Run(Init(delay, size, ids, now), steps)
    ensures var t := After(Init(delay, size, ids, now), steps);
            && (t.consumer.Holding? || t.consumer.Dozing? ==> Shaped(t) && t.ring[t.head].Some?)
            && (t.consumer.Popped? ==> t.consumer.buffer.Some?)
            && forall i :: 0 <= i < |t.departed| ==> t.departed[i].bytes.Some?
  {
    RunInv(delay, size, ids, now, steps);
    var t := After(Init(delay, size, ids, now), steps);
    if t.consumer.Holding? || t.consumer.Dozing? {
      HeadSlot(t);
    }
  }

  /**
   * Chunks go upstream in slot order, each once, as captured by Write, and none before its call time plus the delay.
   */
  lemma FifoAndNotEarly(delay: int, size: nat, ids: set<nat>, now: int, steps: seq<Step>)
    requires size > 0 && Run(Init(delay, size, ids, now), steps)
    ensures var t := After(Init(delay, size, ids, now), steps);
            && |t.departed| <= |t.stored|
            && forall i :: 0 <= i < |t.departed| ==>
                 && t.departed[i].bytes == Some(t.stored[i].bytes)
                 && t.departed[i].start >= t.stored[i].stamp + delay
  {
    RunInv(delay, size, ids, now, steps);
    RunKeepsSize(Init(delay, size, ids, now), steps);
  }

  // ----- sleepers -----

  ghost predicate SomeAsleep(s: State) {
    exists w :: w in s.writers && s.writers[w].Asleep?
  }

  /** While a writer sleeps, every free slot has a woken writer coming for it. */
  lemma NoLostWakeup(delay: int, size: nat, ids: set<nat>, now: int, steps: seq<Step>)
    requires size > 0 && Run(Init(delay, size, ids, now), steps)
    requires SomeAsleep(After(Init(delay, size, ids, now), steps))
    ensures var t := After(Init(delay, size, ids, now), steps); size - Occupied(t) <= |AwakeIn(t.writers)|
  {
    RunInv(delay, size, ids, now, steps);
  }

  /** A step that nobody but the consumer, a woken writer or a notifying writer takes. */
  ghost predicate Progress(step: Step, s: State) {
    match step
    case Lock(w) => w in s.writers && s.writers[w].Awake?
    case Notify(_) | Take | Peek(_) | Rouse(_) | Start | Done => true
    case _ => false
  }

  /** The step that moves the ring on; a dozing consumer may need the clock to reach its deadline first. */
  ghost predicate CanMove(s: State) {
    exists d, step :: Enabled(s, Tick(d)) && Enabled(Do(s, Tick(d)), step) && Progress(step, s)
                      && (d > 0 ==> s.consumer.Dozing? && step.Rouse?)
  }

  lemma Moves(s: State, d: nat, step: Step)
    requires Enabled(Do(s, Tick(d)), step) && Progress(step, s) && (d > 0 ==> s.consumer.Dozing? && step.Rouse?)
    ensures CanMove(s)
  {
    assert Enabled(s, Tick(d));
  }

  ghost function SomeSignal(writers: map<nat, Writer>): (wake: Option<nat>)
    ensures Signals(writers, wake)
  {
    if w :| w in writers && writers[w].Asleep? then Some(w) else None
  }

  /** A sleeping writer is never deadlocked: somebody can always move the ring on. */
  lemma NoDeadlock(delay: int, size: nat, ids: set<nat>, now: int, steps: seq<Step>)
    requires size > 0 && Run(Init(delay, size, ids, now), steps)
    requires SomeAsleep(After(Init(delay, size, ids, now), steps))
    ensures CanMove(After(Init(delay, size, ids, now), steps))
  {
    RunInv(delay, size, ids, now, steps);
    CanMoveFrom(After(Init(delay, size, ids, now), steps));
  }

  lemma CanMoveFrom(s: State)
    requires Inv(s) && SomeAsleep(s)
    ensures CanMove(s)
  {
    var wake := SomeSignal(s.writers);
    match s.consumer
    case Idle =>
      if s.tokens > 0 {
        Moves(s, 0, Take);
      } else if w :| w in AwakeIn(s.writers) {
        Moves(s, 0, Lock(w));
      } else {
        assert StoredIn(s.writers) != {};
        var w :| w in StoredIn(s.writers);
        Moves(s, 0, Notify(w));
      }
    case Holding => Moves(s, 0, Peek(if s.sendTime[s.head] > s.now then None else wake));
    case Dozing(_, until) => Moves(s, if until > s.now then until - s.now else 0, Rouse(wake));
    case Popped(_) => Moves(s, 0, Start);
    case Sending => Moves(s, 0, Done);
  }
}
