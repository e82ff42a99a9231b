/**
 * When a writer waiting for room is sure to be woken. The rejected put and the Wait are separate
 * steps, so the last Signal can fall between them; these lemmas say exactly when that hurts.
 */
module AsynkLiveness {
  import opened Basics
  import opened AsynkProtocol
  import opened AsynkProofs

  /** Something other than a fresh call is still going to happen. */
  ghost predicate Busy(s: State) {
    || s.token
    || !s.consumer.Idle?
    || exists w :: w in s.writers && Active(s.writers[w])
  }

  ghost predicate Active(wr: Writer) {
    wr.Checking? || wr.Copying? || wr.Notifying?
  }

  /** No writer sleeps while nobody is left who would signal it. */
  ghost predicate NoneStranded(s: State) {
    (exists w :: w in s.writers && s.writers[w].Sleeping?) ==> Busy(s)
  }

  ghost predicate NeverStranded(s: State, steps: seq<Step>)
    requires Run(s, steps)
    decreases steps
  {
    NoneStranded(s) && (steps == [] || NeverStranded(Do(s, steps[0]), steps[1..]))
  }

  /** Every writer that enters Wait does so while the sink is still busy. */
  ghost predicate ParksWhileBusy(s: State, steps: seq<Step>)
    requires Run(s, steps)
    decreases steps
  {
    steps == [] || ((steps[0].Park? ==> Busy(s)) && ParksWhileBusy(Do(s, steps[0]), steps[1..]))
  }

  ghost predicate NoFailure(steps: seq<Step>) {
    forall i :: 0 <= i < |steps| ==> !steps[i].SendFails?
  }

  /** Without upstream errors, no writer is ever stranded exactly if none enters Wait when the sink has gone quiet. */
  lemma StrandedExactly(capacity: nat, ids: set<nat>, steps: seq<Step>)
    requires Run(Init(capacity, ids), steps) && NoFailure(steps)
    ensures NeverStranded(Init(capacity, ids), steps) <==> ParksWhileBusy(Init(capacity, ids), steps)
  {
    StrandedFrom(Init(capacity, ids), steps);
  }

  lemma {:induction false} StrandedFrom(s: State, steps: seq<Step>)
    requires Run(s, steps) && NoFailure(steps) && !s.failed && NoneStranded(s)
    ensures NeverStranded(s, steps) <==> ParksWhileBusy(s, steps)
    decreases steps
  {
    if steps != [] {
      var t := Do(s, steps[0]);
      if steps[0].Park? {
        ParkStrands(s, steps[0].w);
      } else {
        StepKeepsNoneStranded(s, steps[0]);
      }
      if NoneStranded(t) {
        StrandedFrom(t, steps[1..]);
      }
    }
  }

  lemma ParkStrands(s: State, w: nat)
    requires Enabled(s, Park(w))
    ensures NoneStranded(Do(s, Park(w))) <==> Busy(s)
  {
    var t := Do(s, Park(w));
    assert t.writers[w].Sleeping?;
    forall v | v in s.writers ensures Active(s.writers[v]) == Active(t.writers[v]) {
    }
    if Busy(s) && s.consumer.Idle? && !s.token {
      var v :| v in s.writers && Active(s.writers[v]);
      assert Active(t.writers[v]);
    }
    if Busy(t) && t.consumer.Idle? && !t.token {
      var v :| v in t.writers && Active(t.writers[v]);
      assert Active(s.writers[v]);
    }
  }

  lemma StepKeepsNoneStranded(s: State, step: Step)
    requires Enabled(s, step) && !step.Park? && !step.SendFails? && !s.failed && NoneStranded(s)
    ensures NoneStranded(Do(s, step))
  {
    var t := Do(s, step);
    if w :| w in t.writers && t.writers[w].Sleeping? {
      assert s.writers[w].Sleeping?;
      match step
      case Finish(wake) =>
        assert Active(t.writers[wake.value]);
      case Call(v, _) => assert Active(t.writers[v]);
      case Check(v) => CheckKeepsBusy(s, v);
      case Copy(v) => assert Active(t.writers[v]);
      case _ =>
    }
  }

  lemma CheckKeepsBusy(s: State, v: nat)
    requires Enabled(s, Check(v))
    ensures s.failed || Busy(Do(s, Check(v)))
  {
    assert !s.failed ==> Active(Do(s, Check(v)).writers[v]);
  }

  /** Once a writer is stranded, only a fresh call can move the sink: everybody else can at most go to sleep too. */
  lemma StrandedForGood(s: State, step: Step)
    requires !Busy(s) && Enabled(s, step)
    ensures step.Call? || (step.Park? && !Busy(Do(s, step)))
  {
    if step.Park? {
      ParkStrands(s, step.w);
      assert Do(s, step).writers[step.w].Sleeping?;
    } else if step.Check? || step.Copy? || step.Notify? {
      assert Active(s.writers[step.w]);
    }
  }

  // ----- runs, step by step -----

  /** `steps` is a run from s without upstream errors, and leads to t. */
  ghost predicate Reaches(s: State, steps: seq<Step>, t: State) {
    Run(s, steps) && After(s, steps) == t && NoFailure(steps)
  }

  lemma {:induction false} Extend(s: State, steps: seq<Step>, step: Step)
    requires Run(s, steps) && Enabled(After(s, steps), step)
    ensures Run(s, steps + [step]) && After(s, steps + [step]) == Do(After(s, steps), step)
    decreases steps
  {
    hide Do, Enabled;
    if steps == [] {
      assert Run(Do(s, step), []) && [step][1..] == [];
    } else {
      Extend(Do(s, steps[0]), steps[1..], step);
      assert (steps + [step])[1..] == steps[1..] + [step];
    }
  }

  lemma Advance(s: State, steps: seq<Step>, t: State, step: Step) returns (longer: seq<Step>, u: State)
    requires Reaches(s, steps, t) && Enabled(t, step) && !step.SendFails?
    ensures Reaches(s, longer, u) && u == Do(t, step) && longer == steps + [step]
  {
    Extend(s, steps, step);
    longer, u := steps + [step], Do(t, step);
  }

  lemma Nothing(s: State)
    ensures Reaches(s, [], s)
  {
  }

  // ----- a busy sink signals -----

  ghost predicate SomeSleeping(s: State) {
    exists w :: w in s.writers && s.writers[w].Sleeping?
  }

  /** Neither a fresh call, nor a writer that goes to sleep, nor a Signal. */
  ghost predicate OnTheWay(step: Step) {
    !step.Call? && !step.Park? && !step.Finish? && !step.SendFails?
  }

  ghost predicate AllOnTheWay(steps: seq<Step>) {
    forall i :: 0 <= i < |steps| ==> OnTheWay(steps[i])
  }

  /** Nothing has failed, and sleepers have not been woken since s. */
  ghost predicate Sound(s: State, t: State) {
    Inv(t) && !t.failed && (SomeSleeping(s) ==> SomeSleeping(t))
  }

  lemma StaysSound(s: State, t: State, step: Step)
    requires Sound(s, t) && Enabled(t, step) && OnTheWay(step)
    ensures Sound(s, Do(t, step))
  {
    hide Inv, SomeSleeping;
    StepKeepsInv(t, step);
    if SomeSleeping(t) {
      SleepersStay(t, step);
    }
  }

  lemma SleepersStay(t: State, step: Step)
    requires SomeSleeping(t) && Enabled(t, step) && OnTheWay(step)
    ensures SomeSleeping(Do(t, step))
  {
    var w :| w in t.writers && t.writers[w].Sleeping?;
    assert Do(t, step).writers[w].Sleeping?;
  }

  /** What is left for an active writer to do before its put. */
  function ToPut(wr: Writer): nat {
    match wr
    case Checking(_, _) => 2
    case Copying(_, _) => 1
    case _ => 0
  }

  lemma PutGoesOn(t: State, w: nat) returns (step: Step)
    requires Inv(t) && !t.failed && w in t.writers && Active(t.writers[w])
    ensures Enabled(t, step) && OnTheWay(step) && Do(t, step).consumer == t.consumer && w in Do(t, step).writers
    ensures if step.Notify? then Do(t, step).token
            else Active(Do(t, step).writers[w]) && ToPut(Do(t, step).writers[w]) < ToPut(t.writers[w])
  {
    assert Indices(t) && FaithfulTo(t, w);
    hide Inv, Flow, WritersFlow, Notified;
    match t.writers[w]
    case Checking(_, _) => step := Check(w);
    case Copying(_, _) => step := Copy(w);
    case Notifying(_, _, _) => step := Notify(w);
  }

  /** An active writer puts a token. */
  lemma {:induction false} TokenComes(s: State, steps: seq<Step>, t: State, w: nat)
    returns (longer: seq<Step>, u: State)
    requires Reaches(s, steps, t) && Sound(s, t) && AllOnTheWay(steps)
    requires w in t.writers && Active(t.writers[w])
    ensures Reaches(s, longer, u) && Sound(s, u) && AllOnTheWay(longer) && u.token && u.consumer == t.consumer
    decreases ToPut(t.writers[w])
  {
    var step := PutGoesOn(t, w);
    StaysSound(s, t, step);
    hide Reaches, Sound, Do, Enabled, ToPut;
    longer, u := Advance(s, steps, t, step);
    if !step.Notify? {
      longer, u := TokenComes(s, longer, u, w);
    }
  }

  /** The consumer's next step towards the end of its round. */
  lemma RoundGoesOn(t: State) returns (step: Step)
    requires Inv(t) && !t.failed && !t.consumer.Sent? && (t.token || !t.consumer.Idle?)
    ensures Enabled(t, step) && OnTheWay(step) && Remaining(Do(t, step)) < Remaining(t) && !Do(t, step).consumer.Idle?
  {
    match t.consumer
    case Idle => step := Take;
    case Woken => step := Snapshot;
    case Sending(next, pos) => step := if pos < next then SendByte else SendReturns;
  }

  /** A bound on the steps to the end of the round. */
  ghost function Remaining(t: State): nat {
    match t.consumer
    case Idle => |t.buffer| + 4
    case Woken => |t.buffer| + 3
    case Sending(next, pos) => if pos < next then next - pos + 1 else 1
    case _ => 0
  }

  /** A token, or a consumer in its round, leads to the end of a round. */
  lemma {:induction false} RoundEnds(s: State, steps: seq<Step>, t: State) returns (longer: seq<Step>, u: State)
    requires Reaches(s, steps, t) && Sound(s, t) && AllOnTheWay(steps) && (t.token || !t.consumer.Idle?)
    ensures Reaches(s, longer, u) && Sound(s, u) && AllOnTheWay(longer) && u.consumer.Sent?
    decreases Remaining(t)
  {
    if t.consumer.Sent? {
      longer, u := steps, t;
    } else {
      var step := RoundGoesOn(t);
      StaysSound(s, t, step);
      hide Reaches, Sound, Do, Enabled, Remaining;
      longer, u := Advance(s, steps, t, step);
      longer, u := RoundEnds(s, longer, u);
    }
  }

  lemma SomeSignal(t: State) returns (wake: Option<nat>)
    ensures Signals(t.writers, wake) && (SomeSleeping(t) ==> wake.Some?)
  {
    if w :| w in t.writers && t.writers[w].Sleeping? {
      wake := Some(w);
    } else {
      wake := None;
    }
  }

  /**
   * A busy sink without an upstream error can always go on, without a fresh call and with nobody going to sleep,
   * to the end of a round of the consumer, where a sleeper is signalled if there is one.
   */
  lemma BusySignals(s: State) returns (steps: seq<Step>, wake: Option<nat>)
    requires Inv(s) && !s.failed && Busy(s)
    ensures Run(s, steps) && AllOnTheWay(steps) && Enabled(After(s, steps), Finish(wake))
    ensures SomeSleeping(s) ==> wake.Some?
  {
    var t := s;
    Nothing(s);
    steps := [];
    if s.consumer.Idle? && !s.token {
      var w :| w in s.writers && Active(s.writers[w]);
      steps, t := TokenComes(s, [], s, w);
    }
    steps, t := RoundEnds(s, steps, t);
    wake := SomeSignal(t);
  }

  // ----- runs that show what can go wrong -----

  /** The consumer's round for one byte. */
  lemma Drain(s: State, steps: seq<Step>, t: State) returns (longer: seq<Step>, u: State)
    requires Reaches(s, steps, t) && t.consumer.Idle? && t.token && t.last == 0 && t.index == 1 <= |t.buffer|
    requires forall w | w in t.writers :: !t.writers[w].Sleeping?
    ensures Reaches(s, longer, u)
    ensures u == t.(token := false, index := 0, last := 0, failed := false,
                    snapshot := t.buffer[0..1], delivered := t.delivered + [t.buffer[0]])
  {
    hide Reaches;
    longer, u := Advance(s, steps, t, Take);
    longer, u := Advance(s, longer, u, Snapshot);
    longer, u := Advance(s, longer, u, SendByte);
    longer, u := Advance(s, longer, u, SendReturns);
    longer, u := Advance(s, longer, u, Finish(None));
  }

  /** Check, Copy and Notify of a writer, if there is no upstream error. */
  lemma Put(s: State, steps: seq<Step>, t: State, w: nat) returns (longer: seq<Step>, u: State)
    requires Reaches(s, steps, t) && !t.failed && t.index <= |t.buffer|
    requires w in t.writers && t.writers[w].Checking? && t.writers[w].done <= |t.writers[w].arg|
    ensures Reaches(s, longer, u)
    ensures Enabled(t, Check(w)) && Enabled(Do(t, Check(w)), Copy(w))
    ensures Enabled(Do(Do(t, Check(w)), Copy(w)), Notify(w))
    ensures u == Do(Do(Do(t, Check(w)), Copy(w)), Notify(w))
  {
    hide Reaches;
    longer, u := Advance(s, steps, t, Check(w));
    longer, u := Advance(s, longer, u, Copy(w));
    longer, u := Advance(s, longer, u, Notify(w));
  }

  /** A sink of capacity one, and its only writer. */
  function Narrow(): State {
    Init(1, {0})
  }

  /** A two byte write, up to the first recursive call. */
  lemma FirstByteIn() returns (steps: seq<Step>, t: State)
    ensures Reaches(Narrow(), steps, t)
    ensures && t.consumer.Idle? && t.token && t.last == 0 && t.index == 1 && t.buffer == [1] && !t.failed
            && t.writers == map[0 := Checking([1, 2], 1)] && t.delivered == []
  {
    var s := Narrow();
    Nothing(s);
    hide Reaches;
    steps, t := Advance(s, [], s, Call(0, [1, 2]));
    steps, t := Put(s, steps, t, 0);
    assert [1, 2][0..1] == [1];
  }

  /** The same write, up to the rejected put. */
  lemma PutRejected() returns (steps: seq<Step>, t: State)
    ensures Reaches(Narrow(), steps, t)
    ensures && t.consumer.Idle? && t.token && t.last == 0 && t.index == 1 == |t.buffer|
            && t.writers == map[0 := Parking([1, 2], 1)]
  {
    hide Reaches;
    steps, t := FirstByteIn();
    steps, t := Put(Narrow(), steps, t, 0);
  }

  /** A writer can be stranded: the last Signal comes before its Wait. */
  lemma StrandingHappens() returns (steps: seq<Step>, t: State)
    ensures Reaches(Narrow(), steps, t)
    ensures !Busy(t) && t.writers == map[0 := Sleeping([1, 2], 1)] && t.index == 0
  {
    hide Reaches;
    steps, t := PutRejected();
    steps, t := Drain(Narrow(), steps, t);
    steps, t := Advance(Narrow(), steps, t, Park(0));
  }

  /** The slice of a finished upstream write is overwritten by a later writer. */
  lemma SliceReuseHappens() returns (steps: seq<Step>, t: State)
    ensures Reaches(Narrow(), steps, t)
    ensures && t.delivered == [1] && t.snapshot == [1] && t.buffer == [2]
            && t.writers == map[0 := Notifying([1, 2], 1, 1)]
  {
    hide Reaches;
    steps, t := FirstByteIn();
    steps, t := Drain(Narrow(), steps, t);
    steps, t := Advance(Narrow(), steps, t, Check(0));
    steps, t := Advance(Narrow(), steps, t, Copy(0));
  }

  /** A write of two bytes can come back with the count one and no error. */
  lemma ShortCountHappens() returns (steps: seq<Step>, t: State)
    ensures Reaches(Narrow(), steps, t)
    ensures t.writers == map[0 := Outside(Returned(1, [1, 2]))]
  {
    hide Reaches;
    steps, t := SliceReuseHappens();
    steps, t := Advance(Narrow(), steps, t, Notify(0));
  }
}
