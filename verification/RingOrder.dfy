/**
 * In which order calls of Write get their slots. The departure times of RingTiming go by slot order; these
 * lemmas say exactly when that is the order of the calls, and when every chunk is delayed by exactly the delay.
 */
module RingOrder {
  import opened Basics
  import opened RingProtocol
  import opened RingProofs
  import opened RingTheorems
  import opened RingTiming

  /** The first n chunks got their slots in the order of their call times. */
  ghost predicate InCallOrder(stored: seq<Chunk>, n: nat)
    requires n <= |stored|
  {
    forall j, k :: 0 <= j <= k < n ==> stored[j].stamp <= stored[k].stamp
  }

  /** Chunks got their slots in the order of the calls, and nobody who called before one of them still waits. */
  ghost predicate NobodyOvertaken(s: State) {
    && InCallOrder(s.stored, |s.stored|)
    && forall w, k :: w in s.writers && Trying(s.writers[w]) && 0 <= k < |s.stored| ==>
         s.stored[k].stamp <= s.writers[w].stamp
  }

  /** A call stores its chunk while an earlier call is still waiting to. */
  ghost predicate Overtakes(s: State, step: Step) {
    && step.Lock? && Enabled(s, step) && s.ring[s.tail] == None
    && exists v :: v in s.writers && Trying(s.writers[v]) && s.writers[v].stamp < s.writers[step.w].stamp
  }

  ghost predicate NoOvertaking(s: State, steps: seq<Step>)
    requires Run(s, steps)
    decreases steps
  {
    steps == [] || (!Overtakes(s, steps[0]) && NoOvertaking(Do(s, steps[0]), steps[1..]))
  }

  // ----- one step -----

  lemma PastStays(s: State, step: Step, t0: int)
    requires StampsInPast(s, t0) && Enabled(s, step)
    ensures StampsInPast(Do(s, step), t0)
  {
  }

  lemma StoreOrder(s: State, w: nat)
    requires NobodyOvertaken(s) && Enabled(s, Lock(w)) && s.ring[s.tail] == None
    ensures NobodyOvertaken(Do(s, Lock(w))) <==> !Overtakes(s, Lock(w))
  {
    var t, n := Do(s, Lock(w)), |s.stored|;
    assert t.stored[n].stamp == s.writers[w].stamp && t.stored[..n] == s.stored;
    if v :| v in s.writers && Trying(s.writers[v]) && s.writers[v].stamp < s.writers[w].stamp {
      assert v != w && Trying(t.writers[v]) && t.writers[v].stamp < t.stored[n].stamp;
    }
    forall k | 0 <= k < n ensures t.stored[k] == s.stored[k] && s.stored[k].stamp <= t.stored[n].stamp {
    }
  }

  lemma OthersKeepOrder(s: State, step: Step, t0: int)
    requires StampsInPast(s, t0) && NobodyOvertaken(s) && Enabled(s, step)
    requires !(step.Lock? && s.ring[s.tail] == None)
    ensures NobodyOvertaken(Do(s, step))
  {
    assert Do(s, step).stored == s.stored;
  }

  /** Whoever has been overtaken stays so: it waits on, or it has stored its chunk out of order. */
  lemma OvertakenStays(s: State, step: Step)
    requires !NobodyOvertaken(s) && Enabled(s, step)
    ensures !NobodyOvertaken(Do(s, step))
  {
    var t := Do(s, step);
    if j, k :| 0 <= j <= k < |s.stored| && s.stored[j].stamp > s.stored[k].stamp {
      assert t.stored[j] == s.stored[j] && t.stored[k] == s.stored[k];
    } else {
      var w, k :| && w in s.writers && Trying(s.writers[w]) && 0 <= k < |s.stored|
                  && s.stored[k].stamp > s.writers[w].stamp;
      assert t.stored[k] == s.stored[k];
      if !Trying(t.writers[w]) {
        assert t.stored[|s.stored|].stamp == s.writers[w].stamp;
      } else {
        assert t.writers[w].stamp == s.writers[w].stamp;
      }
    }
  }

  lemma {:induction false} OrderFrom(s: State, steps: seq<Step>, t0: int)
    requires StampsInPast(s, t0) && Run(s, steps)
    ensures NobodyOvertaken(After(s, steps)) <==> NobodyOvertaken(s) && NoOvertaking(s, steps)
    decreases steps
  {
    if steps != [] {
      PastStays(s, steps[0], t0);
      if !NobodyOvertaken(s) {
        OvertakenStays(s, steps[0]);
      } else if steps[0].Lock? && s.ring[s.tail] == None {
        StoreOrder(s, steps[0].w);
      } else {
        OthersKeepOrder(s, steps[0], t0);
      }
      OrderFrom(Do(s, steps[0]), steps[1..], t0);
    }
  }

  // ----- whole runs -----

  /**
   * Chunks get their slots in the order of the calls if no call stores its chunk while an earlier one waits;
   * and once nobody waits any more, only if.
   */
  lemma SlotsInCallOrder(delay: int, size: nat, ids: set<nat>, t0: int, steps: seq<Step>)
    requires Run(Init(delay, size, ids, t0), steps)
    ensures var s := Init(delay, size, ids, t0);
            var t := After(s, steps);
            && (NoOvertaking(s, steps) ==> InCallOrder(t.stored, |t.stored|))
            && ((forall w :: w in t.writers ==> !Trying(t.writers[w])) ==>
                  (InCallOrder(t.stored, |t.stored|) <==> NoOvertaking(s, steps)))
  {
    OrderFrom(Init(delay, size, ids, t0), steps, t0);
  }

  lemma {:induction false} AloneNeverOvertaken(s: State, steps: seq<Step>)
    requires Run(s, steps) && forall v, w :: v in s.writers && w in s.writers ==> v == w
    ensures NoOvertaking(s, steps)
    decreases steps
  {
    if steps != [] {
      assert Do(s, steps[0]).writers.Keys == s.writers.Keys;
      AloneNeverOvertaken(Do(s, steps[0]), steps[1..]);
    }
  }

  /** No call along the run finds the ring full. */
  ghost predicate AlwaysRoom(s: State, steps: seq<Step>)
    requires Run(s, steps)
    decreases steps
  {
    steps == [] || ((steps[0].Lock? ==> s.ring[s.tail] == None) && AlwaysRoom(Do(s, steps[0]), steps[1..]))
  }

  /** Under the ideal clock, whoever waits without having met a full ring has only just called. */
  ghost predicate JustCalled(s: State) {
    forall w :: w in s.writers && Trying(s.writers[w]) ==> s.writers[w].Filling? && s.writers[w].stamp == s.now
  }

  lemma {:induction false} RoomNeverOvertaken(s: State, steps: seq<Step>, cost: nat -> nat, t0: int)
    requires JustCalled(s) && Run(s, steps) && IdealRun(s, steps, cost, t0) && AlwaysRoom(s, steps)
    ensures NoOvertaking(s, steps)
    decreases steps
  {
    if steps != [] {
      RoomStep(s, steps[0], cost, t0);
      RoomNeverOvertaken(Do(s, steps[0]), steps[1..], cost, t0);
    }
  }

  lemma RoomStep(s: State, step: Step, cost: nat -> nat, t0: int)
    requires JustCalled(s) && Enabled(s, step) && Ideal(s, step, cost, t0)
    requires step.Lock? ==> s.ring[s.tail] == None
    ensures JustCalled(Do(s, step)) && !Overtakes(s, step)
  {
  }

  // ----- exact delay -----

  /** The first n chunks left exactly the delay after their calls. */
  ghost predicate OnTheDot(s: State, n: nat)
    requires n <= |s.departed| && n <= |s.stored|
  {
    forall i :: 0 <= i < n ==> s.departed[i].start == s.stored[i].stamp + s.delay
  }

  lemma {:induction false} InstantUpstream(stamps: seq<int>, delay: nat, cost: nat -> nat, t0: int, i: nat)
    requires i < |stamps| && (forall k :: cost(k) == 0) && forall k :: 0 <= k < |stamps| ==> t0 <= stamps[k]
    requires forall j, k :: 0 <= j <= k <= i ==> stamps[j] <= stamps[k]
    ensures DepartureTime(stamps, delay, cost, t0, i) == stamps[i] + delay
  {
    if i > 0 {
      InstantUpstream(stamps, delay, cost, t0, i - 1);
    }
  }

  lemma {:induction false} NeverBefore(stamps: seq<int>, delay: nat, cost: nat -> nat, t0: int, j: nat, i: nat)
    requires j <= i < |stamps|
    ensures DepartureTime(stamps, delay, cost, t0, i) >= stamps[j] + delay
    decreases i
  {
    if j < i {
      NeverBefore(stamps, delay, cost, t0, j, i - 1);
    }
  }

  /**
   * With instant upstream writes, every chunk sent so far was delayed by exactly the delay if and only if they
   * got their slots in the order of the calls.
   */
  lemma ExactDelay(delay: nat, size: nat, ids: set<nat>, t0: int, steps: seq<Step>, cost: nat -> nat)
    requires size > 0 && Run(Init(delay, size, ids, t0), steps) && IdealRun(Init(delay, size, ids, t0), steps, cost, t0)
    requires forall k :: cost(k) == 0
    ensures var t := After(Init(delay, size, ids, t0), steps);
            && |t.departed| <= |t.stored| && t.delay == delay
            && (OnTheDot(t, |t.departed|) <==> InCallOrder(t.stored, |t.departed|))
  {
    DepartureTimes(delay, size, ids, t0, steps, cost);
    InitInv(delay, size, ids, t0);
    RunKeepsTimed(Init(delay, size, ids, t0), steps, cost, t0);
    RunKeepsSize(Init(delay, size, ids, t0), steps);
    ExactFrom(After(Init(delay, size, ids, t0), steps), delay, cost, t0);
  }

  lemma ExactFrom(t: State, delay: nat, cost: nat -> nat, t0: int)
    requires |t.departed| <= |t.stored| && t.delay == delay && StampsInPast(t, t0) && forall k :: cost(k) == 0
    requires forall i :: 0 <= i < |t.departed| ==>
               t.departed[i].start == DepartureTime(Stamps(t.stored), delay, cost, t0, i)
    ensures OnTheDot(t, |t.departed|) <==> InCallOrder(t.stored, |t.departed|)
  {
    var n, stamps := |t.departed|, Stamps(t.stored);
    if InCallOrder(t.stored, n) {
      forall i | 0 <= i < n ensures t.departed[i].start == t.stored[i].stamp + delay {
        InstantUpstream(stamps, delay, cost, t0, i);
      }
    }
    if OnTheDot(t, n) {
      forall j, k | 0 <= j <= k < n ensures t.stored[j].stamp <= t.stored[k].stamp {
        NeverBefore(stamps, delay, cost, t0, j, k);
        assert t.departed[k].start == t.stored[k].stamp + delay;
      }
    }
  }

  /** So the delay is exact for a single writer, and for any number of writers as long as none finds the ring full. */
  lemma ExactWithoutRivals(delay: nat, size: nat, ids: set<nat>, t0: int, steps: seq<Step>, cost: nat -> nat)
    requires size > 0 && Run(Init(delay, size, ids, t0), steps) && IdealRun(Init(delay, size, ids, t0), steps, cost, t0)
    requires forall k :: cost(k) == 0
    requires |ids| <= 1 || AlwaysRoom(Init(delay, size, ids, t0), steps)
    ensures var t := After(Init(delay, size, ids, t0), steps);
            |t.departed| <= |t.stored| && t.delay == delay && OnTheDot(t, |t.departed|)
  {
    var s := Init(delay, size, ids, t0);
    ExactDelay(delay, size, ids, t0, steps, cost);
    if |ids| <= 1 {
      forall v, w | v in ids && w in ids ensures v == w {
        OnlyOne(ids, v, w);
      }
      AloneNeverOvertaken(s, steps);
    } else {
      RoomNeverOvertaken(s, steps, cost, t0);
    }
    SlotsInCallOrder(delay, size, ids, t0, steps);
  }

  lemma OnlyOne(ids: set<nat>, v: nat, w: nat)
    requires |ids| <= 1 && v in ids && w in ids
    ensures v == w
  {
    assert |ids - {v}| == |ids| - 1;
    assert w !in ids - {v};
  }

  // ----- a full ring can make a delay longer -----

  function Instant(k: nat): nat {
    0
  }

  /** `steps` is a run under the ideal clock with instant upstream writes, and leads to t. */
  ghost predicate LeadsTo(s: State, steps: seq<Step>, t: State) {
    Run(s, steps) && IdealRun(s, steps, Instant, 0) && After(s, steps) == t
  }

  lemma {:induction false} Onwards(s: State, steps: seq<Step>, t: State, step: Step)
    requires LeadsTo(s, steps, t) && Enabled(t, step) && Ideal(t, step, Instant, 0)
    ensures LeadsTo(s, steps + [step], Do(t, step))
    decreases steps
  {
    if steps == [] {
      assert [step][1..] == [];
      assert Run(Do(s, step), []) && IdealRun(Do(s, step), [], Instant, 0);
    } else {
      Onwards(Do(s, steps[0]), steps[1..], t, step);
      assert (steps + [step])[1..] == steps[1..] + [step];
    }
  }

  lemma Advance(s: State, steps: seq<Step>, t: State, step: Step) returns (longer: seq<Step>, u: State)
    requires LeadsTo(s, steps, t) && Enabled(t, step) && Ideal(t, step, Instant, 0)
    ensures LeadsTo(s, longer, u) && u == Do(t, step)
  {
    Onwards(s, steps, t, step);
    longer, u := steps + [step], Do(t, step);
  }

  /** A ring of one slot with three writers. */
  function Narrow(): State {
    Init(10, 1, {0, 1, 2}, 0)
  }

  function Quiet(one: Writer): map<nat, Writer> {
    map[0 := Outside, 1 := one, 2 := Outside]
  }

  /** Writer 0 fills the slot at time 0. */
  lemma FirstStores() returns (steps: seq<Step>, t: State)
    ensures LeadsTo(Narrow(), steps, t)
    ensures t == State(10, [Some([])], [10], 0, 0, 0, 0, Dozing(Some([]), 10), Quiet(Outside),
                       [Chunk(0, 0, 10, [])], 0, [])
  {
    var s := Narrow();
    steps, t := [], s;
    assert LeadsTo(s, steps, t);
    hide LeadsTo;
    steps, t := Advance(s, steps, t, Enter(0));
    steps, t := Advance(s, steps, t, Lock(0));
    steps, t := Advance(s, steps, t, Notify(0));
    steps, t := Advance(s, steps, t, Take);
    steps, t := Advance(s, steps, t, Peek(None));
    assert t.writers == Quiet(Outside);
  }

  /** Writer 1 calls at time 1 and goes to sleep. */
  lemma SecondSleeps() returns (steps: seq<Step>, t: State)
    ensures LeadsTo(Narrow(), steps, t)
    ensures t == State(10, [Some([])], [10], 0, 0, 0, 10, Dozing(Some([]), 10), Quiet(Asleep(1, [])),
                       [Chunk(0, 0, 10, [])], 0, [])
  {
    hide LeadsTo;
    var s := Narrow();
    steps, t := FirstStores();
    steps, t := Advance(s, steps, t, Tick(1));
    steps, t := Advance(s, steps, t, Enter(1));
    steps, t := Advance(s, steps, t, Lock(1));
    assert t.writers == Quiet(Asleep(1, []));
    steps, t := Advance(s, steps, t, Tick(9));
  }

  /** At time 10 the slot is free and writer 1 is signalled, but writer 2 calls and takes it. */
  lemma ThirdStores() returns (steps: seq<Step>, t: State)
    ensures LeadsTo(Narrow(), steps, t)
    ensures t == State(10, [Some([])], [20], 0, 0, 0, 10, Popped(Some([])),
                       map[0 := Outside, 1 := Asleep(1, []), 2 := Stored],
                       [Chunk(0, 0, 10, []), Chunk(2, 10, 20, [])], 1, [])
  {
    hide LeadsTo;
    var s := Narrow();
    steps, t := SecondSleeps();
    steps, t := Advance(s, steps, t, Rouse(Some(1)));
    steps, t := Advance(s, steps, t, Enter(2));
    steps, t := Advance(s, steps, t, Lock(2));
    steps, t := Advance(s, steps, t, Lock(1));
  }

  lemma ThirdOvertakes() returns (steps: seq<Step>, t: State)
    ensures LeadsTo(Narrow(), steps, t)
    ensures t == State(10, [Some([])], [20], 0, 0, 0, 10, Dozing(Some([]), 20), Quiet(Asleep(1, [])),
                       [Chunk(0, 0, 10, []), Chunk(2, 10, 20, [])], 1, [Departure(10, Some([]))])
  {
    hide LeadsTo;
    var s := Narrow();
    steps, t := ThirdStores();
    steps, t := Advance(s, steps, t, Start);
    steps, t := Advance(s, steps, t, Notify(2));
    steps, t := Advance(s, steps, t, Done);
    steps, t := Advance(s, steps, t, Take);
    steps, t := Advance(s, steps, t, Peek(None));
    assert t.writers == Quiet(Asleep(1, []));
  }

  lemma SecondStores() returns (steps: seq<Step>, t: State)
    ensures LeadsTo(Narrow(), steps, t)
    ensures t == State(10, [Some([])], [11], 0, 0, 0, 20, Sending, map[0 := Outside, 1 := Stored, 2 := Outside],
                       [Chunk(0, 0, 10, []), Chunk(2, 10, 20, []), Chunk(1, 1, 11, [])], 2,
                       [Departure(10, Some([])), Departure(20, Some([]))])
  {
    hide LeadsTo;
    var s := Narrow();
    steps, t := ThirdOvertakes();
    steps, t := Advance(s, steps, t, Tick(10));
    steps, t := Advance(s, steps, t, Rouse(Some(1)));
    steps, t := Advance(s, steps, t, Lock(1));
    steps, t := Advance(s, steps, t, Start);
  }

  /** The call made at time 1 is due at 11 and leaves at 20: the full ring has made its delay longer. */
  lemma FullRingDelays() returns (steps: seq<Step>, t: State)
    ensures LeadsTo(Narrow(), steps, t)
    ensures |t.stored| == |t.departed| == 3 && t.stored[2] == Chunk(1, 1, 11, []) && t.departed[2].start == 20
  {
    hide LeadsTo;
    var s := Narrow();
    steps, t := SecondStores();
    steps, t := Advance(s, steps, t, Notify(1));
    steps, t := Advance(s, steps, t, Done);
    steps, t := Advance(s, steps, t, Take);
    assert t.writers == Quiet(Outside);
    steps, t := Advance(s, steps, t, Peek(None));
    steps, t := Advance(s, steps, t, Start);
  }
}
