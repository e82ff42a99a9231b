/** What every run of the ring delayer keeps, for any number of writers and any interleaving. */
module RingProofs {
  import opened Basics
  import opened RingProtocol

  // ----- slots -----

  /** The slot of the k-th chunk. */
  function Slot(k: nat, n: nat): (i: nat)
    requires n > 0
    ensures i < n
  {
    k % n
  }

  lemma ModOf(a: nat, q: nat, r: nat, n: nat)
    requires r < n && a == q * n + r
    ensures a % n == r
  {
    var d := a / n - q;
    assert d * n == r - a % n;
    assert d >= 1 ==> d * n >= n;
    assert d <= -1 ==> d * n + n <= 0;
  }

  lemma SlotNext(k: nat, n: nat)
    requires n > 0
    ensures Slot(k + 1, n) == (Slot(k, n) + 1) % n
  {
    var q, r := k / n, k % n;
    assert k == q * n + r;
    if r + 1 < n {
      ModOf(k + 1, q, r + 1, n);
      ModOf(r + 1, 0, r + 1, n);
    } else {
      assert (q + 1) * n == q * n + n;
      ModOf(k + 1, q + 1, 0, n);
      ModOf(r + 1, 1, 0, n);
    }
  }

  lemma SlotInjective(j: nat, k: nat, n: nat)
    requires n > 0 && j < k < j + n
    ensures Slot(j, n) != Slot(k, n)
  {
    var p, r := j / n, j % n;
    assert j == p * n + r;
    if r + (k - j) < n {
      ModOf(k, p, r + (k - j), n);
    } else {
      assert (p + 1) * n == p * n + n;
      ModOf(k, p + 1, r + (k - j) - n, n);
    }
  }

  /** Any n consecutive chunk numbers meet every slot. */
  lemma SlotCover(i: nat, lo: nat, n: nat) returns (k: nat)
    requires i < n
    ensures lo <= k < lo + n && Slot(k, n) == i
  {
    var q, r := lo / n, lo % n;
    assert lo == q * n + r;
    if r <= i {
      k := lo + i - r;
      ModOf(k, q, i, n);
    } else {
      assert (q + 1) * n == q * n + n;
      k := lo + n + i - r;
      ModOf(k, q + 1, i, n);
    }
  }

  // ----- the cyclic window -----

  /** The chunks stored and not popped sit in their slots from head to tail; every other slot is empty. */
  ghost predicate Window(s: State) {
    var n := |s.ring|;
    && Shaped(s)
    && s.popped <= |s.stored| <= s.popped + n
    && s.head == Slot(s.popped, n) && s.tail == Slot(|s.stored|, n)
    && (forall k :: s.popped <= k < |s.stored| ==>
          s.ring[Slot(k, n)] == Some(s.stored[k].bytes) && s.sendTime[Slot(k, n)] == s.stored[k].due)
    && (forall k :: |s.stored| <= k < s.popped + n ==> s.ring[Slot(k, n)] == None)
  }

  ghost function Occupied(s: State): int {
    |s.stored| - s.popped
  }

  lemma TailFree(s: State)
    requires Window(s)
    ensures s.ring[s.tail] == None <==> Occupied(s) < |s.ring|
  {
    if Occupied(s) == |s.ring| {
      var n := |s.ring|;
      assert |s.stored| == s.popped + n;
      SlotWrap(s.popped, n);
      assert s.ring[Slot(s.popped, n)] == Some(s.stored[s.popped].bytes);
    }
  }

  lemma SlotWrap(k: nat, n: nat)
    requires n > 0
    ensures Slot(k + n, n) == Slot(k, n)
  {
    ModOf(k + n, k / n + 1, k % n, n);
  }

  lemma StoreKeepsWindow(s: State, w: nat)
    requires Window(s) && Enabled(s, Lock(w)) && s.ring[s.tail] == None
    ensures Window(Store(s, w))
  {
    var n, t := |s.ring|, Store(s, w);
    TailFree(s);
    SlotNext(|s.stored|, n);
    forall k | t.popped <= k < |t.stored|
      ensures t.ring[Slot(k, n)] == Some(t.stored[k].bytes) && t.sendTime[Slot(k, n)] == t.stored[k].due
    {
      if k < |s.stored| {
        SlotInjective(k, |s.stored|, n);
      }
    }
    forall k | |t.stored| <= k < t.popped + n ensures t.ring[Slot(k, n)] == None {
      SlotInjective(|s.stored|, k, n);
    }
  }

  lemma PopKeepsWindow(s: State, buffer: Option<seq<byte>>, wake: Option<nat>)
    requires Window(s) && Occupied(s) > 0 && Signals(s.writers, wake)
    ensures Window(Pop(s, buffer, wake))
  {
    var n, t := |s.ring|, Pop(s, buffer, wake);
    SlotNext(s.popped, n);
    forall k | t.popped <= k < |t.stored|
      ensures t.ring[Slot(k, n)] == Some(t.stored[k].bytes) && t.sendTime[Slot(k, n)] == t.stored[k].due
    {
      SlotInjective(s.popped, k, n);
    }
    forall k | |t.stored| <= k < t.popped + n ensures t.ring[Slot(k, n)] == None {
      if k < s.popped + n {
        SlotInjective(s.popped, k, n);
      } else {
        SlotWrap(s.popped, n);
      }
    }
  }

  // ----- counting tokens and writers -----

  ghost function StoredIn(writers: map<nat, Writer>): set<nat> {
    set w | w in writers && writers[w].Stored?
  }

  ghost function AwakeIn(writers: map<nat, Writer>): set<nat> {
    set w | w in writers && writers[w].Awake?
  }

  ghost function InHand(c: Consumer): nat {
    if c.Holding? || c.Dozing? then 1 else 0
  }

  /** Every chunk in the ring has its token: in the channel, about to be sent, or in the consumer's hand. */
  ghost predicate Accounted(s: State) {
    Occupied(s) == s.tokens + |StoredIn(s.writers)| + InHand(s.consumer)
  }

  /** While anybody sleeps, the free slots are spoken for by writers already woken. */
  ghost predicate Attended(s: State) {
    (exists w :: w in s.writers && s.writers[w].Asleep?) ==> |s.ring| - Occupied(s) <= |AwakeIn(s.writers)|
  }

  lemma SetWriter(writers: map<nat, Writer>, w: nat, x: Writer)
    requires w in writers
    ensures var old', new' := writers[w], writers[w := x];
            && |StoredIn(new')| == |StoredIn(writers)| + (if x.Stored? then 1 else 0) - (if old'.Stored? then 1 else 0)
            && |AwakeIn(new')| == |AwakeIn(writers)| + (if x.Awake? then 1 else 0) - (if old'.Awake? then 1 else 0)
  {
    var new' := writers[w := x];
    forall v ensures v != w ==> (v in StoredIn(new') <==> v in StoredIn(writers)) {
    }
    forall v ensures v != w ==> (v in AwakeIn(new') <==> v in AwakeIn(writers)) {
    }
    CountChanged(StoredIn(writers), StoredIn(new'), w);
    CountChanged(AwakeIn(writers), AwakeIn(new'), w);
  }

  lemma CountChanged(s: set<nat>, t: set<nat>, w: nat)
    requires forall v :: v != w ==> (v in t <==> v in s)
    ensures |t| == |s| + (if w in t then 1 else 0) - (if w in s then 1 else 0)
  {
    CountWithout(s, w);
    CountWithout(t, w);
    assert s - {w} == t - {w};
  }

  lemma CountWithout(s: set<nat>, w: nat)
    ensures |s| == |s - {w}| + if w in s then 1 else 0
  {
    if w in s {
      assert s == (s - {w}) + {w};
    } else {
      assert s == s - {w};
    }
  }

  // ----- what leaves the ring -----

  /** Chunks leave in slot order, once each, as they were captured and not before they are due. */
  ghost predicate Outgoing(s: State) {
    && |s.departed| == s.popped - (if s.consumer.Popped? then 1 else 0)
    && |s.departed| <= |s.stored|
    && (forall k :: 0 <= k < |s.stored| ==> s.stored[k].due == s.stored[k].stamp + s.delay)
    && (forall k :: 0 <= k < |s.departed| ==>
          s.departed[k].bytes == Some(s.stored[k].bytes) && s.stored[k].due <= s.departed[k].start <= s.now)
    && (s.consumer.Popped? ==>
          && 0 < s.popped <= |s.stored|
          && s.consumer.buffer == Some(s.stored[s.popped - 1].bytes) && s.stored[s.popped - 1].due <= s.now)
    && (s.consumer.Dozing? ==>
          && s.popped < |s.stored|
          && s.consumer.buffer == Some(s.stored[s.popped].bytes) && s.consumer.until == s.stored[s.popped].due)
  }

  ghost predicate Inv(s: State) {
    Window(s) && Accounted(s) && Attended(s) && Outgoing(s)
  }

  lemma InitInv(delay: int, size: nat, ids: set<nat>, now: int)
    requires size > 0
    ensures Inv(Init(delay, size, ids, now))
  {
    var s := Init(delay, size, ids, now);
    assert StoredIn(s.writers) == {};
  }

  lemma StoreKeepsInv(s: State, w: nat)
    requires Inv(s) && Enabled(s, Lock(w)) && s.ring[s.tail] == None
    ensures Inv(Store(s, w))
  {
    StoreKeepsWindow(s, w);
    SetWriter(s.writers, w, Stored);
  }

  lemma SleepKeepsInv(s: State, w: nat)
    requires Inv(s) && Enabled(s, Lock(w)) && s.ring[s.tail].Some?
    ensures Inv(Sleep(s, w))
  {
    TailFree(s);
    SetWriter(s.writers, w, Asleep(s.writers[w].stamp, s.writers[w].bytes));
  }

  lemma PopKeepsInv(s: State, wake: Option<nat>)
    requires Inv(s) && (s.consumer.Holding? || s.consumer.Dozing?) && Signals(s.writers, wake)
    requires Occupied(s) > 0 && s.stored[s.popped].due <= s.now
    ensures Inv(Pop(s, Some(s.stored[s.popped].bytes), wake))
  {
    PopKeepsWindow(s, Some(s.stored[s.popped].bytes), wake);
    if wake.Some? {
      SetWriter(s.writers, wake.value, Awake(s.writers[wake.value].stamp, s.writers[wake.value].bytes));
    }
  }

  lemma HeadSlot(s: State)
    requires Inv(s) && (s.consumer.Holding? || s.consumer.Dozing?)
    ensures Occupied(s) > 0
    ensures s.ring[s.head] == Some(s.stored[s.popped].bytes) && s.sendTime[s.head] == s.stored[s.popped].due
  {
  }

  lemma WriterStepKeepsInv(s: State, step: Step)
    requires Inv(s) && Enabled(s, step) && (step.Enter? || step.Fill? || step.Lock? || step.Notify?)
    ensures Inv(Do(s, step))
  {
    match step
    case Enter(w) => CallKeepsInv(s, step, w, Filling(s.now, []));
    case Fill(w, b) => CallKeepsInv(s, step, w, Filling(s.writers[w].stamp, s.writers[w].bytes + [b]));
    case Lock(w) =>
      if s.ring[s.tail].Some? { SleepKeepsInv(s, w); } else { StoreKeepsInv(s, w); }
    case Notify(w) => CallKeepsInv(s, step, w, Outside);
  }

  /** A step of a writer's call outside the lock. */
  lemma CallKeepsInv(s: State, step: Step, w: nat, next: Writer)
    requires Inv(s) && Enabled(s, step)
    requires || (step.Enter? && w == step.w && next == Filling(s.now, []))
             || (step.Fill? && w == step.w && next == Filling(s.writers[w].stamp, s.writers[w].bytes + [step.b]))
             || (step == Notify(w) && next == Outside)
    ensures Inv(Do(s, step))
  {
    SetWriter(s.writers, w, next);
    hide Slot, StoredIn, AwakeIn;
  }

  lemma PeekKeepsInv(s: State, wake: Option<nat>)
    requires Inv(s) && Enabled(s, Peek(wake))
    ensures Inv(Do(s, Peek(wake)))
  {
    HeadSlot(s);
    if s.sendTime[s.head] <= s.now {
      PopKeepsInv(s, wake);
    }
  }

  lemma RouseKeepsInv(s: State, wake: Option<nat>)
    requires Inv(s) && Enabled(s, Rouse(wake))
    ensures Inv(Do(s, Rouse(wake)))
  {
    HeadSlot(s);
    PopKeepsInv(s, wake);
  }

  lemma StepKeepsInv(s: State, step: Step)
    requires Inv(s) && Enabled(s, step)
    ensures Inv(Do(s, step))
  {
    hide Inv, Do, Enabled;
    match step
    case Peek(wake) => PeekKeepsInv(s, wake);
    case Rouse(wake) => RouseKeepsInv(s, wake);
    case Take => PlainStepKeepsInv(s, step);
    case Start => PlainStepKeepsInv(s, step);
    case Done => PlainStepKeepsInv(s, step);
    case Tick(_) => PlainStepKeepsInv(s, step);
    case _ => WriterStepKeepsInv(s, step);
  }

  /** Steps that leave the ring and the writers alone. */
  lemma PlainStepKeepsInv(s: State, step: Step)
    requires Inv(s) && Enabled(s, step) && (step.Take? || step.Start? || step.Done? || step.Tick?)
    ensures Inv(Do(s, step))
  {
    hide Slot, StoredIn, AwakeIn;
  }

  lemma {:induction false} RunKeepsInv(s: State, steps: seq<Step>)
    requires Inv(s) && Run(s, steps)
    ensures Inv(After(s, steps))
    decreases steps
  {
    hide Inv, Do, Enabled;
    if steps != [] {
      StepKeepsInv(s, steps[0]);
      RunKeepsInv(Do(s, steps[0]), steps[1..]);
    }
  }

  lemma {:induction false} Extend(s: State, steps: seq<Step>, step: Step)
    requires Run(s, steps) && Enabled(After(s, steps), step)
    ensures Run(s, steps + [step]) && After(s, steps + [step]) == Do(After(s, steps), step)
    decreases steps
  {
    if steps == [] {
      assert Run(Do(s, step), []) && [step][1..] == [];
    } else {
      Extend(Do(s, steps[0]), steps[1..], step);
      assert (steps + [step])[1..] == steps[1..] + [step];
    }
  }
}
