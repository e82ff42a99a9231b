/**
 * Departure times under an ideal clock: every step that can be taken is taken before the clock moves,
 * sleeps end on time, and the i-th upstream write takes cost(i).
 */
module RingTiming {
  import opened Basics
  import opened RingProtocol
  import opened RingProofs
  import opened RingTheorems

  /** The recurrence: a chunk leaves when it is due and the upstream write before it is over. */
  ghost function DepartureTime(stamps: seq<int>, delay: int, cost: nat -> nat, t0: int, i: nat): int
    requires i < |stamps|
  {
    Max(stamps[i] + delay, if i == 0 then t0 else DepartureTime(stamps, delay, cost, t0, i - 1) + cost(i - 1))
  }

  /** When the consumer was free for its i-th chunk. */
  ghost function FreeAt(departed: seq<Departure>, cost: nat -> nat, t0: int, i: nat): int
    requires i <= |departed|
  {
    if i == 0 then t0 else departed[i - 1].start + cost(i - 1)
  }

  ghost predicate Trying(wr: Writer) {
    wr.Filling? || wr.Asleep? || wr.Awake?
  }

  /** The clock has to stand still for these. */
  ghost predicate Urgent(s: State, cost: nat -> nat, t0: int) {
    || (exists w :: w in s.writers && (s.writers[w].Filling? || s.writers[w].Awake? || s.writers[w].Stored?))
    || (s.consumer.Idle? && s.tokens > 0)
    || s.consumer.Holding? || s.consumer.Popped?
    || (s.consumer.Dozing? && s.consumer.until <= s.now)
    || (s.consumer.Sending? && FreeAt(s.departed, cost, t0, |s.departed|) <= s.now)
  }

  /** One step under the ideal clock. */
  ghost predicate Ideal(s: State, step: Step, cost: nat -> nat, t0: int) {
    match step
    case Tick(d) =>
      && !Urgent(s, cost, t0)
      && (s.consumer.Dozing? ==> s.now + d <= s.consumer.until)
      && (s.consumer.Sending? ==> s.now + d <= FreeAt(s.departed, cost, t0, |s.departed|))
    case Done => s.now >= FreeAt(s.departed, cost, t0, |s.departed|)
    case _ => true
  }

  ghost predicate IdealRun(s: State, steps: seq<Step>, cost: nat -> nat, t0: int)
    requires Run(s, steps)
    decreases steps
  {
    steps == [] || (Ideal(s, steps[0], cost, t0) && IdealRun(Do(s, steps[0]), steps[1..], cost, t0))
  }

  /** All call times lie between the start and now. */
  ghost predicate InPast(now: int, writers: map<nat, Writer>, stored: seq<Chunk>, t0: int) {
    && t0 <= now
    && (forall w :: w in writers && Trying(writers[w]) ==> t0 <= writers[w].stamp <= now)
    && (forall k :: 0 <= k < |stored| ==> t0 <= stored[k].stamp <= now)
  }

  ghost predicate StampsInPast(s: State, t0: int) {
    InPast(s.now, s.writers, s.stored, t0)
  }

  ghost predicate Recurrence(departed: seq<Departure>, stored: seq<Chunk>, cost: nat -> nat, t0: int)
    requires |departed| <= |stored|
  {
    forall i :: 0 <= i < |departed| ==> departed[i].start == Max(stored[i].due, FreeAt(departed, cost, t0, i))
  }

  /** The clock has not run past the moment from which somebody has been waiting for a free consumer. */
  ghost predicate Prompt(now: int, writers: map<nat, Writer>, stored: seq<Chunk>, popped: nat, free: int) {
    && (forall w :: w in writers && Trying(writers[w]) ==> now <= Max(writers[w].stamp, free))
    && (forall k :: popped <= k < |stored| ==> now <= Max(stored[k].stamp, free))
  }

  /** The consumer is where it should be, given when it was free for its next chunk. */
  ghost predicate OnTime(s: State, free: int) {
    match s.consumer
    case Idle => free <= s.now && Prompt(s.now, s.writers, s.stored, s.popped, free)
    case Holding => free <= s.now && Prompt(s.now, s.writers, s.stored, s.popped, free)
    case Dozing(_, until) => free <= s.now <= until
    case Popped(_) => |s.departed| < |s.stored| && s.now == Max(s.stored[|s.departed|].due, free)
    case Sending => s.now <= free
  }

  ghost predicate Timed(s: State, cost: nat -> nat, t0: int) {
    && Inv(s) && s.delay >= 0 && |s.departed| <= |s.stored|
    && StampsInPast(s, t0) && Recurrence(s.departed, s.stored, cost, t0)
    && OnTime(s, FreeAt(s.departed, cost, t0, |s.departed|))
  }

  /** When the clock may move although the consumer is idle, nobody is waiting for anything. */
  lemma IdleMeansEmpty(s: State, cost: nat -> nat, t0: int)
    requires Inv(s) && s.consumer.Idle? && !Urgent(s, cost, t0)
    ensures Occupied(s) == 0
    ensures forall w :: w in s.writers ==> !Trying(s.writers[w])
  {
    assert StoredIn(s.writers) == {};
    assert AwakeIn(s.writers) == {};
  }

  // ----- one writer changes -----

  /** A writer that waits from now on, or as before, or no longer. */
  ghost predicate Waits(now: int, old': Writer, new': Writer) {
    Trying(new') ==> new'.stamp == now || (Trying(old') && new'.stamp == old'.stamp)
  }

  lemma SetInPast(now: int, writers: map<nat, Writer>, stored: seq<Chunk>, t0: int, w: nat, x: Writer)
    requires InPast(now, writers, stored, t0) && w in writers && Waits(now, writers[w], x)
    ensures InPast(now, writers[w := x], stored, t0)
  {
  }

  lemma SetPrompt(now: int, writers: map<nat, Writer>, stored: seq<Chunk>, popped: nat, free: int, w: nat, x: Writer)
    requires Prompt(now, writers, stored, popped, free) && w in writers && Waits(now, writers[w], x)
    ensures Prompt(now, writers[w := x], stored, popped, free)
  {
  }

  lemma StoreInPast(now: int, writers: map<nat, Writer>, stored: seq<Chunk>, t0: int, w: nat, c: Chunk)
    requires InPast(now, writers, stored, t0)
    requires w in writers && Trying(writers[w]) && c.stamp == writers[w].stamp
    ensures InPast(now, writers[w := Stored], stored + [c], t0)
  {
  }

  lemma StorePrompt(now: int, writers: map<nat, Writer>, stored: seq<Chunk>, popped: nat, free: int, w: nat, c: Chunk)
    requires Prompt(now, writers, stored, popped, free)
    requires w in writers && Trying(writers[w]) && c.stamp == writers[w].stamp
    ensures Prompt(now, writers[w := Stored], stored + [c], popped, free)
  {
  }

  lemma RecurrenceExtends(departed: seq<Departure>, stored: seq<Chunk>, cost: nat -> nat, t0: int, c: Chunk)
    requires |departed| <= |stored| && Recurrence(departed, stored, cost, t0)
    ensures Recurrence(departed, stored + [c], cost, t0)
  {
  }

  /** A step that changes one writer and, of what the timing looks at, nothing else. */
  lemma WriterKeepsTimed(s: State, t: State, w: nat, x: Writer, cost: nat -> nat, t0: int)
    requires Timed(s, cost, t0) && Inv(t) && w in s.writers && Waits(s.now, s.writers[w], x)
    requires t.writers == s.writers[w := x] && t.stored == s.stored && t.departed == s.departed && t.popped == s.popped
    requires t.now == s.now && t.consumer == s.consumer && t.delay == s.delay
    ensures Timed(t, cost, t0)
  {
    hide Inv, InPast, Prompt, Recurrence, FreeAt;
    SetInPast(s.now, s.writers, s.stored, t0, w, x);
    var free := FreeAt(s.departed, cost, t0, |s.departed|);
    if s.consumer.Idle? || s.consumer.Holding? {
      SetPrompt(s.now, s.writers, s.stored, s.popped, free, w, x);
    }
  }

  lemma StoreKeepsTimed(s: State, w: nat, cost: nat -> nat, t0: int)
    requires Timed(s, cost, t0) && Enabled(s, Lock(w)) && s.ring[s.tail] == None
    ensures Timed(Store(s, w), cost, t0)
  {
    hide Inv, InPast, Prompt, Recurrence, FreeAt;
    StoreKeepsInv(s, w);
    var t, c := Store(s, w), Chunk(w, s.writers[w].stamp, s.writers[w].stamp + s.delay, s.writers[w].bytes);
    assert t.stored == s.stored + [c] && t.writers == s.writers[w := Stored] && t.departed == s.departed;
    StoreInPast(s.now, s.writers, s.stored, t0, w, c);
    RecurrenceExtends(s.departed, s.stored, cost, t0, c);
    var free := FreeAt(s.departed, cost, t0, |s.departed|);
    if s.consumer.Idle? || s.consumer.Holding? {
      StorePrompt(s.now, s.writers, s.stored, s.popped, free, w, c);
    }
  }

  lemma LockKeepsTimed(s: State, w: nat, cost: nat -> nat, t0: int)
    requires Timed(s, cost, t0) && Enabled(s, Lock(w))
    ensures Timed(Do(s, Lock(w)), cost, t0)
  {
    hide Timed, Inv;
    if s.ring[s.tail] == None {
      StoreKeepsTimed(s, w, cost, t0);
    } else {
      SleepKeepsTimed(s, w, cost, t0);
    }
  }

  lemma SleepKeepsTimed(s: State, w: nat, cost: nat -> nat, t0: int)
    requires Timed(s, cost, t0) && Enabled(s, Lock(w)) && s.ring[s.tail].Some?
    ensures Timed(Sleep(s, w), cost, t0)
  {
    SleepKeepsInv(s, w);
    hide Timed, Inv;
    WriterKeepsTimed(s, Sleep(s, w), w, Asleep(s.writers[w].stamp, s.writers[w].bytes), cost, t0);
  }

  lemma CallKeepsTimed(s: State, step: Step, cost: nat -> nat, t0: int)
    requires Timed(s, cost, t0) && Enabled(s, step) && (step.Enter? || step.Fill? || step.Notify?)
    ensures Timed(Do(s, step), cost, t0)
  {
    StepKeepsInv(s, step);
    hide Timed, Inv;
    WriterKeepsTimed(s, Do(s, step), step.w, Do(s, step).writers[step.w], cost, t0);
  }

  // ----- the consumer -----

  /** The chunk at the head is due, and has been waited for since the moment it leaves. */
  lemma LeavesNow(now: int, writers: map<nat, Writer>, stored: seq<Chunk>, n: nat, free: int)
    requires Prompt(now, writers, stored, n, free) && n < |stored| && stored[n].stamp <= stored[n].due <= now
    requires free <= now
    ensures now == Max(stored[n].due, free)
  {
  }

  lemma WakeInPast(now: int, writers: map<nat, Writer>, stored: seq<Chunk>, t0: int, wake: Option<nat>)
    requires InPast(now, writers, stored, t0) && Signals(writers, wake)
    ensures InPast(now, Wake(writers, wake), stored, t0)
  {
    if wake.Some? {
      var wr := writers[wake.value];
      hide InPast;
      SetInPast(now, writers, stored, t0, wake.value, Awake(wr.stamp, wr.bytes));
    }
  }

  lemma PopKeepsTimed(s: State, wake: Option<nat>, cost: nat -> nat, t0: int)
    requires Timed(s, cost, t0) && Signals(s.writers, wake) && Shaped(s) && |s.departed| < |s.stored|
    requires s.now == Max(s.stored[|s.departed|].due, FreeAt(s.departed, cost, t0, |s.departed|))
    requires Inv(Pop(s, Some(s.stored[|s.departed|].bytes), wake))
    ensures Timed(Pop(s, Some(s.stored[|s.departed|].bytes), wake), cost, t0)
  {
    hide Inv, InPast, Prompt, Recurrence, FreeAt;
    WakeInPast(s.now, s.writers, s.stored, t0, wake);
  }

  lemma PeekKeepsTimed(s: State, wake: Option<nat>, cost: nat -> nat, t0: int)
    requires Timed(s, cost, t0) && Enabled(s, Peek(wake))
    ensures Timed(Do(s, Peek(wake)), cost, t0)
  {
    HeadSlot(s);
    StepKeepsInv(s, Peek(wake));
    var n := |s.departed|;
    assert s.popped == n < |s.stored| && s.stored[n].due == s.stored[n].stamp + s.delay;
    hide Inv, InPast, Prompt, Recurrence, FreeAt;
    if s.sendTime[s.head] <= s.now {
      LeavesNow(s.now, s.writers, s.stored, n, FreeAt(s.departed, cost, t0, n));
      PopKeepsTimed(s, wake, cost, t0);
    }
  }

  lemma RouseKeepsTimed(s: State, wake: Option<nat>, cost: nat -> nat, t0: int)
    requires Timed(s, cost, t0) && Enabled(s, Rouse(wake))
    ensures Timed(Do(s, Rouse(wake)), cost, t0)
  {
    StepKeepsInv(s, Rouse(wake));
    var n := |s.departed|;
    assert s.popped == n < |s.stored| && s.consumer.until == s.stored[n].due;
    assert s.consumer.buffer == Some(s.stored[n].bytes);
    hide Inv, InPast, Prompt, Recurrence, FreeAt;
    PopKeepsTimed(s, wake, cost, t0);
  }

  lemma ConsumerKeepsTimed(s: State, step: Step, cost: nat -> nat, t0: int)
    requires Timed(s, cost, t0) && Enabled(s, step) && Ideal(s, step, cost, t0) && (step.Take? || step.Done?)
    ensures Timed(Do(s, step), cost, t0)
  {
    StepKeepsInv(s, step);
    hide Inv, InPast, Prompt, Recurrence, FreeAt;
    if step.Done? {
      PromptNow(s.now, s.writers, s.stored, s.popped);
    }
  }

  lemma PromptNow(now: int, writers: map<nat, Writer>, stored: seq<Chunk>, popped: nat)
    ensures Prompt(now, writers, stored, popped, now)
  {
  }

  lemma StartKeepsRecurrence(departed: seq<Departure>, stored: seq<Chunk>, cost: nat -> nat, t0: int, d: Departure)
    requires |departed| < |stored| && Recurrence(departed, stored, cost, t0)
    requires d.start == Max(stored[|departed|].due, FreeAt(departed, cost, t0, |departed|))
    ensures Recurrence(departed + [d], stored, cost, t0)
  {
    var more := departed + [d];
    forall i | 0 <= i < |more| ensures more[i].start == Max(stored[i].due, FreeAt(more, cost, t0, i)) {
      FreeAtSnoc(departed, d, cost, t0, i);
    }
  }

  lemma FreeAtSnoc(departed: seq<Departure>, last: Departure, cost: nat -> nat, t0: int, i: nat)
    requires i <= |departed|
    ensures FreeAt(departed + [last], cost, t0, i) == FreeAt(departed, cost, t0, i)
    ensures (departed + [last])[i] == if i < |departed| then departed[i] else last
  {
  }

  lemma FreeAfter(departed: seq<Departure>, d: Departure, cost: nat -> nat, t0: int)
    ensures FreeAt(departed + [d], cost, t0, |departed| + 1) == d.start + cost(|departed|)
  {
  }

  lemma StartKeepsTimed(s: State, cost: nat -> nat, t0: int)
    requires Timed(s, cost, t0) && Enabled(s, Start)
    ensures Timed(Do(s, Start), cost, t0)
  {
    hide Inv, InPast, Prompt, Recurrence, FreeAt;
    StepKeepsInv(s, Start);
    var d := Departure(s.now, s.consumer.buffer);
    FreeAfter(s.departed, d, cost, t0);
    StartKeepsRecurrence(s.departed, s.stored, cost, t0, d);
  }

  lemma LaterInPast(now: int, later: int, writers: map<nat, Writer>, stored: seq<Chunk>, t0: int)
    requires InPast(now, writers, stored, t0) && now <= later
    ensures InPast(later, writers, stored, t0)
  {
  }

  lemma NobodyWaits(now: int, writers: map<nat, Writer>, stored: seq<Chunk>, popped: nat, free: int)
    requires popped >= |stored| && forall w :: w in writers ==> !Trying(writers[w])
    ensures Prompt(now, writers, stored, popped, free)
  {
  }

  lemma TickKeepsTimed(s: State, d: nat, cost: nat -> nat, t0: int)
    requires Timed(s, cost, t0) && Ideal(s, Tick(d), cost, t0)
    ensures Timed(Do(s, Tick(d)), cost, t0)
  {
    StepKeepsInv(s, Tick(d));
    if s.consumer.Idle? {
      IdleMeansEmpty(s, cost, t0);
    }
    hide Inv, InPast, Prompt, Recurrence, FreeAt;
    LaterInPast(s.now, s.now + d, s.writers, s.stored, t0);
    if s.consumer.Idle? {
      NobodyWaits(s.now + d, s.writers, s.stored, s.popped, FreeAt(s.departed, cost, t0, |s.departed|));
    }
  }

  lemma StepKeepsTimed(s: State, step: Step, cost: nat -> nat, t0: int)
    requires Timed(s, cost, t0) && Enabled(s, step) && Ideal(s, step, cost, t0)
    ensures Timed(Do(s, step), cost, t0)
  {
    hide Timed, Do, Enabled;
    match step
    case Peek(wake) => PeekKeepsTimed(s, wake, cost, t0);
    case Rouse(wake) => RouseKeepsTimed(s, wake, cost, t0);
    case Start => StartKeepsTimed(s, cost, t0);
    case Tick(d) => TickKeepsTimed(s, d, cost, t0);
    case Take => ConsumerKeepsTimed(s, step, cost, t0);
    case Done => ConsumerKeepsTimed(s, step, cost, t0);
    case Lock(w) => LockKeepsTimed(s, w, cost, t0);
    case _ => CallKeepsTimed(s, step, cost, t0);
  }

  lemma {:induction false} RunKeepsTimed(s: State, steps: seq<Step>, cost: nat -> nat, t0: int)
    requires Timed(s, cost, t0) && Run(s, steps) && IdealRun(s, steps, cost, t0)
    ensures Timed(After(s, steps), cost, t0)
    decreases steps
  {
    hide Timed, Do, Enabled, Ideal;
    if steps != [] {
      StepKeepsTimed(s, steps[0], cost, t0);
      RunKeepsTimed(Do(s, steps[0]), steps[1..], cost, t0);
    }
  }

  /**
   * The ideal clock never traps anybody: in every reachable state either some step of a writer or of the
   * consumer is open, or the clock itself may move.
   */
  lemma IdealGoesOn(s: State, cost: nat -> nat, t0: int) returns (step: Step)
    requires Inv(s)
    ensures Enabled(s, step) && Ideal(s, step, cost, t0) && (step.Tick? ==> step.d > 0)
  {
    if w :| w in s.writers && (s.writers[w].Filling? || s.writers[w].Awake?) {
      step := Lock(w);
    } else if w :| w in StoredIn(s.writers) {
      step := Notify(w);
    } else {
      assert forall w :: w in s.writers && s.writers[w].Stored? ==> w in StoredIn(s.writers);
      step := ConsumerGoesOn(s, cost, t0);
    }
  }

  lemma ConsumerGoesOn(s: State, cost: nat -> nat, t0: int) returns (step: Step)
    requires Shaped(s)
    requires forall w :: w in s.writers ==> s.writers[w].Outside? || s.writers[w].Asleep?
    ensures Enabled(s, step) && Ideal(s, step, cost, t0) && (step.Tick? ==> step.d > 0)
  {
    var wake := SomeSignal(s.writers);
    match s.consumer
    case Idle => step := if s.tokens > 0 then Take else Tick(1);
    case Holding => step := Peek(if s.sendTime[s.head] > s.now then None else wake);
    case Dozing(_, until) => step := if until <= s.now then Rouse(wake) else Tick(1);
    case Popped(_) => step := Start;
    case Sending => step := if FreeAt(s.departed, cost, t0, |s.departed|) <= s.now then Done else Tick(1);
  }

  ghost function Stamps(stored: seq<Chunk>): (stamps: seq<int>)
    ensures |stamps| == |stored| && forall i :: 0 <= i < |stamps| ==> stamps[i] == stored[i].stamp
  {
    seq(|stored|, i requires 0 <= i < |stored| => stored[i].stamp)
  }

  /**
   * Every departure time is the one the recurrence gives from the call times in slot order. Nothing else
   * enters into it, but the slot order itself is a matter of the run: see RingOrder.
   */
  lemma DepartureTimes(delay: nat, size: nat, ids: set<nat>, t0: int, steps: seq<Step>, cost: nat -> nat)
    requires size > 0 && Run(Init(delay, size, ids, t0), steps) && IdealRun(Init(delay, size, ids, t0), steps, cost, t0)
    ensures var t := After(Init(delay, size, ids, t0), steps);
            && |t.departed| <= |t.stored|
            && forall i :: 0 <= i < |t.departed| ==>
                 t.departed[i].start == DepartureTime(Stamps(t.stored), delay, cost, t0, i)
  {
    var s := Init(delay, size, ids, t0);
    InitInv(delay, size, ids, t0);
    RunKeepsTimed(s, steps, cost, t0);
    RunKeepsSize(s, steps);
    var t := After(s, steps);
    forall i | 0 <= i < |t.departed|
      ensures t.departed[i].start == DepartureTime(Stamps(t.stored), delay, cost, t0, i)
    {
      FollowsRecurrence(t.departed, Stamps(t.stored), delay, cost, t0, i);
    }
  }

  /** And no chunk is ever late: the clock does not pass a departure time before the chunk has departed. */
  lemma NeverLate(delay: nat, size: nat, ids: set<nat>, t0: int, steps: seq<Step>, cost: nat -> nat, i: nat)
    requires size > 0 && Run(Init(delay, size, ids, t0), steps) && IdealRun(Init(delay, size, ids, t0), steps, cost, t0)
    requires var t := After(Init(delay, size, ids, t0), steps); |t.departed| <= i < |t.stored|
    ensures var t := After(Init(delay, size, ids, t0), steps);
            t.now <= DepartureTime(Stamps(t.stored), delay, cost, t0, i)
  {
    var s := Init(delay, size, ids, t0);
    InitInv(delay, size, ids, t0);
    RunKeepsTimed(s, steps, cost, t0);
    RunKeepsSize(s, steps);
    DepartureTimes(delay, size, ids, t0, steps, cost);
    hide Run, After, IdealRun;
    NextNotLate(After(s, steps), cost, t0);
    DeparturesGrow(Stamps(After(s, steps).stored), delay, cost, t0, |After(s, steps).departed|, i);
  }

  /** The clock has not passed the next departure time. */
  lemma NextNotLate(t: State, cost: nat -> nat, t0: int)
    requires Timed(t, cost, t0) && |t.departed| < |t.stored|
    requires forall i :: 0 <= i < |t.departed| ==>
               t.departed[i].start == DepartureTime(Stamps(t.stored), t.delay, cost, t0, i)
    ensures t.now <= DepartureTime(Stamps(t.stored), t.delay, cost, t0, |t.departed|)
  {
    var n, free := |t.departed|, FreeAt(t.departed, cost, t0, |t.departed|);
    assert t.stored[n].due == t.stored[n].stamp + t.delay;
    assert !t.consumer.Popped? ==> t.popped == n;
    assert t.consumer.Dozing? ==> t.consumer.until == t.stored[n].due;
    assert DepartureTime(Stamps(t.stored), t.delay, cost, t0, n) == Max(t.stored[n].stamp + t.delay, free);
    hide Inv, StampsInPast, Recurrence, DepartureTime;
  }

  lemma {:induction false} DeparturesGrow(stamps: seq<int>, delay: int, cost: nat -> nat, t0: int, j: nat, i: nat)
    requires j <= i < |stamps|
    ensures DepartureTime(stamps, delay, cost, t0, j) <= DepartureTime(stamps, delay, cost, t0, i)
    decreases i
  {
    if j < i {
      DeparturesGrow(stamps, delay, cost, t0, j, i - 1);
    }
  }

  lemma {:induction false} FollowsRecurrence(
      departed: seq<Departure>, stamps: seq<int>, delay: int, cost: nat -> nat, t0: int, i: nat)
    requires i < |departed| <= |stamps|
    requires forall k :: 0 <= k <= i ==> departed[k].start == Max(stamps[k] + delay, FreeAt(departed, cost, t0, k))
    ensures departed[i].start == DepartureTime(stamps, delay, cost, t0, i)
  {
    if i > 0 {
      FollowsRecurrence(departed, stamps, delay, cost, t0, i - 1);
    }
  }

  /** The cost of the m upstream writes from the j-th on. */
  ghost function TotalCost(cost: nat -> nat, j: nat, m: nat): nat {
    if m == 0 then 0 else TotalCost(cost, j, m - 1) + cost(j + m - 1)
  }

  /** In closed form: each departure is as late as the worst backlog, counted from some earlier chunk, makes it. */
  lemma {:induction false} WorstBacklog(stamps: seq<int>, delay: nat, cost: nat -> nat, t0: int, i: nat)
    returns (j: nat)
    requires i < |stamps| && forall k :: 0 <= k < |stamps| ==> t0 <= stamps[k]
    ensures j <= i && DepartureTime(stamps, delay, cost, t0, i) == stamps[j] + delay + TotalCost(cost, j, i - j)
    ensures forall k :: 0 <= k <= i ==>
              stamps[k] + delay + TotalCost(cost, k, i - k) <= DepartureTime(stamps, delay, cost, t0, i)
  {
    if i == 0 {
      j := 0;
    } else {
      var before := WorstBacklog(stamps, delay, cost, t0, i - 1);
      j := if stamps[i] + delay >= DepartureTime(stamps, delay, cost, t0, i - 1) + cost(i - 1) then i else before;
    }
  }
}
