/** What a frame reflects of the epochs closed by then, and what the contract of the callbacks is worth. */
module InterposerContract {
  import opened Basics
  import opened InterposerProtocol
  import opened InterposerScreens
  import opened InterposerEpochs

  // ----- the contract and what it misses -----

  /** The newest epoch whose input is reflected in what was read from upstream, performed or not. */
  ghost function ReadReach<E, S, P>(s: State<E, S, P>): nat
    requires s.screens.snapshots != []
  {
    if s.puller.Got? then s.screens.arriving else s.screens.snapshots[|s.screens.snapshots| - 1].reach
  }

  /** The callback contract: an epoch is closed only when its input is reflected in what was read from upstream. */
  ghost predicate Honoured<E, S, P>(s: State<E, S, P>, step: Step) {
    step.Close? ==> s.screens.snapshots != [] && step.e <= ReadReach(s)
  }

  ghost predicate HonouredRun<E, S, P>(m: Mosh<E, S, P>, s: State<E, S, P>, steps: seq<Step>)
    requires Run(m, s, steps)
    decreases steps
  {
    steps == [] || (Honoured(s, steps[0]) && HonouredRun(m, Do(m, s, steps[0]), steps[1..]))
  }

  /** More than that: it is reflected in what the puller has performed. */
  ghost predicate Performed<E, S, P>(s: State<E, S, P>, step: Step) {
    step.Close? ==> s.screens.snapshots != [] && step.e <= s.screens.snapshots[|s.screens.snapshots| - 1].reach
  }

  ghost predicate ClosesPerformed<E, S, P>(m: Mosh<E, S, P>, s: State<E, S, P>, steps: seq<Step>)
    requires Run(m, s, steps)
    decreases steps
  {
    steps == [] || (Performed(s, steps[0]) && ClosesPerformed(m, Do(m, s, steps[0]), steps[1..]))
  }

  /** No close finds the puller between its read and the lock region that performs what it read. */
  ghost predicate ClosesBetweenReads<E, S, P>(m: Mosh<E, S, P>, s: State<E, S, P>, steps: seq<Step>)
    requires Run(m, s, steps)
    decreases steps
  {
    steps == [] || ((steps[0].Close? ==> !s.puller.Got?) && ClosesBetweenReads(m, Do(m, s, steps[0]), steps[1..]))
  }

  /** For those closes the contract is enough. */
  lemma {:induction false} HonouredBetweenReads<E, S, P>(m: Mosh<E, S, P>, s: State<E, S, P>, steps: seq<Step>)
    requires Run(m, s, steps) && HonouredRun(m, s, steps) && ClosesBetweenReads(m, s, steps)
    ensures ClosesPerformed(m, s, steps)
    decreases steps
  {
    if steps != [] {
      HonouredBetweenReads(m, Do(m, s, steps[0]), steps[1..]);
    }
  }

  /** Snapshot `index` reflects the epoch last acknowledged to the predictor and every closed epoch. */
  ghost predicate Reflects<S>(snapshots: seq<Snapshot<S>>, index: nat, acked: nat, closed: set<nat>) {
    && index < |snapshots|
    && acked <= snapshots[index].reach
    && forall e :: e in closed ==> e <= snapshots[index].reach
  }

  /** The complete screen reflects it. */
  ghost predicate CompleteReflects<E, S, P>(s: State<E, S, P>) {
    Reflects(s.screens.snapshots, s.screens.completeIndex, s.books.lastAcked, ClosedEpochs(s.books.epochs))
  }

  ghost predicate FramesReflect<E, S, P>(s: State<E, S, P>) {
    && Sound(s) && CompleteReflects(s)
    && forall i :: 0 <= i < |s.clock.frames| ==>
         var f := s.clock.frames[i];
         && Reflects(s.screens.snapshots, f.index, f.acked, f.closed)
         && f.given == s.screens.snapshots[f.index].screen
  }

  lemma StaysReflected<S>(snapshots: seq<Snapshot<S>>, more: seq<Snapshot<S>>, i: nat, j: nat,
                          acked: nat, closed: set<nat>)
    requires Reflects(snapshots, i, acked, closed) && snapshots <= more && i <= j < |more|
    requires forall d, e :: 0 <= d <= e < |more| ==> more[d].reach <= more[e].reach
    ensures Reflects(more, j, acked, closed) && more[i] == snapshots[i]
  {
    assert more[i] == snapshots[i] && more[i].reach <= more[j].reach;
  }

  lemma SoundStep<E, S, P>(m: Mosh<E, S, P>, s: State<E, S, P>, step: Step)
    requires Sound(s) && Enabled(s, step)
    ensures Sound(Do(m, s, step)) && Onward(s.screens, Do(m, s, step).screens)
  {
    if PullerStep(step) {
      PullerKeepsSound(m, s, step);
    } else {
      OthersKeepSound(m, s, step);
    }
  }

  /** Only CloseEpoch closes an epoch or acknowledges one. */
  lemma SameClosed<E, S, P>(m: Mosh<E, S, P>, s: State<E, S, P>, step: Step)
    requires BooksInv(s.books, s.mutex) && Enabled(s, step)
    ensures var b, c := s.books, Do(m, s, step).books;
            if step.Close? then c.lastAcked == step.e && ClosedEpochs(c.epochs) == ClosedEpochs(b.epochs) + {step.e}
            else c.lastAcked == b.lastAcked && ClosedEpochs(c.epochs) == ClosedEpochs(b.epochs)
  {
    if !BookStep(step) {
      BooksUntouched(m, s, step);
    }
  }

  lemma SameFrames<E, S, P>(m: Mosh<E, S, P>, s: State<E, S, P>, step: Step)
    requires Enabled(s, step) && !step.MakeFrame?
    ensures Do(m, s, step).clock.frames == s.clock.frames
  {
  }

  lemma CurrentReflects<E, S, P>(m: Mosh<E, S, P>, s: State<E, S, P>, step: Step)
    requires Sound(s) && CompleteReflects(s) && BooksInv(s.books, s.mutex) && Enabled(s, step)
    ensures CompleteReflects(Do(m, s, step)) <==> Performed(s, step)
  {
    var t := Do(m, s, step);
    SoundStep(m, s, step);
    SameClosed(m, s, step);
    if step.Close? {
      assert t.screens.snapshots == s.screens.snapshots && t.screens.completeIndex == |s.screens.snapshots| - 1;
      assert step.e in ClosedEpochs(t.books.epochs);
    }
    StaysReflected(s.screens.snapshots, t.screens.snapshots, s.screens.completeIndex, t.screens.completeIndex,
                   s.books.lastAcked, ClosedEpochs(s.books.epochs));
  }

  ghost predicate ReflectsThroughout<E, S, P>(m: Mosh<E, S, P>, s: State<E, S, P>, steps: seq<Step>)
    requires Run(m, s, steps)
    decreases steps
  {
    CompleteReflects(s) && (steps == [] || ReflectsThroughout(m, Do(m, s, steps[0]), steps[1..]))
  }

  lemma {:induction false} ReflectsFrom<E, S, P>(m: Mosh<E, S, P>, s: State<E, S, P>, steps: seq<Step>)
    requires Sound(s) && CompleteReflects(s) && BooksInv(s.books, s.mutex) && Run(m, s, steps)
    ensures ReflectsThroughout(m, s, steps) <==> ClosesPerformed(m, s, steps)
    decreases steps
  {
    hide Sound, CompleteReflects, BooksInv, Do, Enabled;
    if steps != [] {
      SoundStep(m, s, steps[0]);
      StepKeepsBooks(m, s, steps[0]);
      CurrentReflects(m, s, steps[0]);
      if Performed(s, steps[0]) {
        ReflectsFrom(m, Do(m, s, steps[0]), steps[1..]);
      }
    }
  }

  /**
   * With closes in any order, the complete screen always reflects the epoch last acknowledged to the predictor
   * and every closed epoch exactly if every close finds its input performed by the puller.
   */
  lemma ReflectsExactly<E, S, P>(m: Mosh<E, S, P>, interval: int, ids: set<nat>, now: int, steps: seq<Step>)
    requires Run(m, Init(m, interval, ids, now), steps)
    ensures ReflectsThroughout(m, Init(m, interval, ids, now), steps)
       <==> ClosesPerformed(m, Init(m, interval, ids, now), steps)
  {
    ReflectsFrom(m, Init(m, interval, ids, now), steps);
  }

  lemma StepKeepsReflect<E, S, P>(m: Mosh<E, S, P>, s: State<E, S, P>, step: Step)
    requires FramesReflect(s) && BooksInv(s.books, s.mutex) && Enabled(s, step) && Performed(s, step)
    ensures FramesReflect(Do(m, s, step))
  {
    var t := Do(m, s, step);
    SoundStep(m, s, step);
    CurrentReflects(m, s, step);
    forall i | 0 <= i < |s.clock.frames|
      ensures var f := s.clock.frames[i];
              && Reflects(t.screens.snapshots, f.index, f.acked, f.closed)
              && f.given == t.screens.snapshots[f.index].screen
    {
      var f := s.clock.frames[i];
      StaysReflected(s.screens.snapshots, t.screens.snapshots, f.index, f.index, f.acked, f.closed);
    }
    if step.MakeFrame? {
      FrameOf(m, s);
    } else {
      SameFrames(m, s, step);
    }
  }

  lemma FrameOf<E, S, P>(m: Mosh<E, S, P>, s: State<E, S, P>)
    requires Enabled(s, MakeFrame)
    ensures var t := Do(m, s, MakeFrame);
            && t.screens == s.screens && |t.clock.frames| == |s.clock.frames| + 1
            && t.clock.frames[..|s.clock.frames|] == s.clock.frames
            && var f := t.clock.frames[|s.clock.frames|];
               && f.given == s.screens.complete && f.index == s.screens.completeIndex
               && f.acked == s.books.lastAcked && f.closed == ClosedEpochs(s.books.epochs)
  {
  }

  lemma {:induction false} RunKeepsReflect<E, S, P>(m: Mosh<E, S, P>, s: State<E, S, P>, steps: seq<Step>)
    requires FramesReflect(s) && BooksInv(s.books, s.mutex) && Run(m, s, steps) && ClosesPerformed(m, s, steps)
    ensures FramesReflect(After(m, s, steps))
    decreases steps
  {
    hide FramesReflect, BooksInv, Do, Enabled;
    if steps != [] {
      StepKeepsReflect(m, s, steps[0]);
      StepKeepsBooks(m, s, steps[0]);
      RunKeepsReflect(m, Do(m, s, steps[0]), steps[1..]);
    }
  }

  /**
   * If every close finds its input performed, in whatever order they come, the framebuffer every frame was made
   * from reflects the epoch last acknowledged to the predictor by then and every epoch closed by then.
   */
  lemma FramesReflectAcks<E, S, P>(m: Mosh<E, S, P>, interval: int, ids: set<nat>, now: int, steps: seq<Step>, i: nat)
    requires Run(m, Init(m, interval, ids, now), steps) && ClosesPerformed(m, Init(m, interval, ids, now), steps)
    requires i < |After(m, Init(m, interval, ids, now), steps).clock.frames|
    ensures var t := After(m, Init(m, interval, ids, now), steps);
            var f := t.clock.frames[i];
            && f.index < |t.screens.snapshots| && f.given == t.screens.snapshots[f.index].screen
            && f.acked <= t.screens.snapshots[f.index].reach
            && forall e :: e in f.closed ==> e <= t.screens.snapshots[f.index].reach
  {
    RunKeepsReflect(m, Init(m, interval, ids, now), steps);
  }

  // ----- the contract alone -----

  /** All that was acknowledged is reflected in what was read from upstream. */
  ghost predicate AckedIsRead<E, S, P>(s: State<E, S, P>) {
    && Sound(s) && s.books.lastAcked <= ReadReach(s)
    && forall e :: e in ClosedEpochs(s.books.epochs) ==> e <= ReadReach(s)
  }

  lemma ReadReachGrows<E, S, P>(m: Mosh<E, S, P>, s: State<E, S, P>, step: Step)
    requires Sound(s) && Enabled(s, step)
    ensures Sound(Do(m, s, step)) && ReadReach(s) <= ReadReach(Do(m, s, step))
    ensures step.Close? ==> ReadReach(s) == ReadReach(Do(m, s, step))
  {
    SoundStep(m, s, step);
  }

  lemma {:induction false} RunKeepsRead<E, S, P>(m: Mosh<E, S, P>, s: State<E, S, P>, steps: seq<Step>)
    requires AckedIsRead(s) && BooksInv(s.books, s.mutex) && Run(m, s, steps) && HonouredRun(m, s, steps)
    ensures AckedIsRead(After(m, s, steps))
    decreases steps
  {
    if steps != [] {
      ReadReachGrows(m, s, steps[0]);
      SameClosed(m, s, steps[0]);
      StepKeepsBooks(m, s, steps[0]);
      RunKeepsRead(m, Do(m, s, steps[0]), steps[1..]);
    }
  }

  /**
   * Under the callback contract alone, what is acknowledged is in the newest snapshot or in the chunk the puller holds.
   */
  lemma AckedHasArrived<E, S, P>(m: Mosh<E, S, P>, interval: int, ids: set<nat>, now: int, steps: seq<Step>)
    requires Run(m, Init(m, interval, ids, now), steps) && HonouredRun(m, Init(m, interval, ids, now), steps)
    ensures AckedIsRead(After(m, Init(m, interval, ids, now), steps))
  {
    RunKeepsRead(m, Init(m, interval, ids, now), steps);
  }

  /** `steps` is a run that honours the contract, and leads to t. */
  ghost predicate LeadsTo<E, S, P>(m: Mosh<E, S, P>, s: State<E, S, P>, steps: seq<Step>, t: State<E, S, P>) {
    Run(m, s, steps) && HonouredRun(m, s, steps) && After(m, s, steps) == t
  }

  lemma {:induction false} Honestly<E, S, P>(m: Mosh<E, S, P>, s: State<E, S, P>, steps: seq<Step>,
                                            t: State<E, S, P>, step: Step)
    requires LeadsTo(m, s, steps, t) && Enabled(t, step) && Honoured(t, step)
    ensures LeadsTo(m, s, steps + [step], Do(m, t, step))
    decreases steps
  {
    if steps == [] {
      assert [step][1..] == [];
      assert Run(m, Do(m, s, step), []) && HonouredRun(m, Do(m, s, step), []);
    } else {
      Honestly(m, Do(m, s, steps[0]), steps[1..], t, step);
      assert (steps + [step])[1..] == steps[1..] + [step];
    }
  }

  lemma HonestStep<E, S, P>(m: Mosh<E, S, P>, s: State<E, S, P>, steps: seq<Step>, t: State<E, S, P>, step: Step)
    returns (longer: seq<Step>, u: State<E, S, P>)
    requires LeadsTo(m, s, steps, t) && Enabled(t, step) && Honoured(t, step)
    ensures LeadsTo(m, s, longer, u) && u == Do(m, t, step)
  {
    Honestly(m, s, steps, t, step);
    longer, u := steps + [step], Do(m, t, step);
  }

  /** Writer 0 opens epoch 1, and its callback starts. */
  lemma EpochWaits<E, S, P>(m: Mosh<E, S, P>) returns (steps: seq<Step>, t: State<E, S, P>)
    ensures LeadsTo(m, Init(m, 0, {0}, 0), steps, t)
    ensures && t.mutex == None && t.puller.Pulling? && t.updates == Updates(false, Away)
            && t.screens == Init(m, 0, {0}, 0).screens && t.books.epochs == map[1 := Epoch.Waiting(0)]
            && t.clock == Clock(0, 0, None, []) && t.display == Display(m.blank, false, false, None, [])
  {
    var s := Init(m, 0, {0}, 0);
    steps, t := [], s;
    steps, t := HonestStep(m, s, steps, t, Write(0, []));
    assert t.screens.events == [];
    steps, t := HonestStep(m, s, steps, t, WriteFinish(0));
    steps, t := HonestStep(m, s, steps, t, WriteSubmit(0));
    assert t.books.epochs == map[1 := Epoch.Waiting(0)];
  }

  /** It is closed while the chunk that reflects it is in the puller's hands. */
  lemma ClosedWhileReading<E, S, P>(m: Mosh<E, S, P>) returns (steps: seq<Step>, t: State<E, S, P>)
    ensures LeadsTo(m, Init(m, 0, {0}, 0), steps, t)
    ensures && t.mutex == None && t.updates == Updates(true, Away)
            && t.screens.snapshots == [Snapshot(m.blank, 0, 0)] && t.screens.completeIndex == 0
            && t.books.lastAcked == 1 && t.clock == Clock(0, 0, None, [])
            && t.display == Display(m.blank, false, false, None, [])
  {
    hide LeadsTo;
    var s := Init(m, 0, {0}, 0);
    steps, t := EpochWaits(m);
    steps, t := HonestStep(m, s, steps, t, Pull([65], 1));
    steps, t := HonestStep(m, s, steps, t, Close(1));
    steps, t := HonestStep(m, s, steps, t, CloseNotify(1));
    steps, t := HonestStep(m, s, steps, t, CloseFlag(1));
  }

  lemma ReadComesThrough<E, S, P>(m: Mosh<E, S, P>) returns (steps: seq<Step>, t: State<E, S, P>)
    ensures LeadsTo(m, Init(m, 0, {0}, 0), steps, t)
    ensures && t.mutex == None && t.updates.reader.Clearing?
            && t.screens.snapshots == [Snapshot(m.blank, 0, 0)] && t.screens.completeIndex == 0
            && t.books.lastAcked == 1 && t.clock == Clock(0, 0, None, [])
  {
    hide LeadsTo;
    var s := Init(m, 0, {0}, 0);
    steps, t := ClosedWhileReading(m);
    steps, t := HonestStep(m, s, steps, t, Read(|m.open|));
    steps, t := HonestStep(m, s, steps, t, Read(1));
    steps, t := HonestStep(m, s, steps, t, Gate);
  }

  /** So the contract is not enough: a frame made then does not reflect the epoch last acknowledged. */
  lemma AckedTooEarly<E, S, P>(m: Mosh<E, S, P>) returns (steps: seq<Step>)
    ensures Run(m, Init(m, 0, {0}, 0), steps) && HonouredRun(m, Init(m, 0, {0}, 0), steps)
    ensures var t := After(m, Init(m, 0, {0}, 0), steps);
            && |t.clock.frames| == 1 && t.clock.frames[0].acked == 1 && t.clock.frames[0].index == 0
            && t.screens.snapshots == [Snapshot(m.blank, 0, 0)]
  {
    var s, t := Init(m, 0, {0}, 0), Init(m, 0, {0}, 0);
    steps, t := ReadComesThrough(m);
    steps, t := HonestStep(m, s, steps, t, Clear);
    steps, t := HonestStep(m, s, steps, t, MakeFrame);
  }

  // ----- the callbacks -----

  /** Each writer about to start a callback has an epoch of its own to start it for. */
  ghost predicate SubmitInv<S, P>(writers: map<nat, Writer>, b: Books<S, P>) {
    && (forall w :: w in writers && writers[w].Submitting? ==>
          writers[w].epoch <= b.epoch && writers[w].epoch in b.epochs && b.epochs[writers[w].epoch].Unsent?)
    && (forall v, w :: v in writers && w in writers && v != w && writers[v].Submitting? && writers[w].Submitting? ==>
          writers[v].epoch != writers[w].epoch)
  }

  lemma FinishKeepsSubmit<E, S, P>(m: Mosh<E, S, P>, s: State<E, S, P>, w: nat)
    requires SubmitInv(s.writers, s.books) && Enabled(s, WriteFinish(w))
    ensures SubmitInv(Do(m, s, WriteFinish(w)).writers, Do(m, s, WriteFinish(w)).books)
  {
  }

  lemma SubmitKeepsSubmit<E, S, P>(m: Mosh<E, S, P>, s: State<E, S, P>, w: nat)
    requires SubmitInv(s.writers, s.books) && Enabled(s, WriteSubmit(w))
    ensures SubmitInv(Do(m, s, WriteSubmit(w)).writers, Do(m, s, WriteSubmit(w)).books)
  {
  }

  lemma OthersKeepSubmit<E, S, P>(m: Mosh<E, S, P>, s: State<E, S, P>, step: Step)
    requires SubmitInv(s.writers, s.books) && Enabled(s, step) && !step.WriteFinish? && !step.WriteSubmit?
    ensures SubmitInv(Do(m, s, step).writers, Do(m, s, step).books)
  {
    if step.Write? || step.WriteNotify? || step.WriteFlag? {
      HoldersLeaveEpochs(m, s, step);
    } else {
      WritersStay(m, s, step);
      UnsentStay(m, s, step);
    }
    hide Do, Enabled;
  }

  lemma HoldersLeaveEpochs<E, S, P>(m: Mosh<E, S, P>, s: State<E, S, P>, step: Step)
    requires Enabled(s, step) && (step.Write? || step.WriteNotify? || step.WriteFlag?)
    ensures var t := Do(m, s, step);
            && t.books.epochs == s.books.epochs && t.books.epoch == s.books.epoch
            && t.writers == s.writers[step.w := t.writers[step.w]] && !t.writers[step.w].Submitting?
  {
  }

  lemma WritersStay<E, S, P>(m: Mosh<E, S, P>, s: State<E, S, P>, step: Step)
    requires Enabled(s, step) && !step.Write? && !step.WriteNotify? && !step.WriteFlag? && !step.WriteFinish?
    requires !step.WriteSubmit?
    ensures Do(m, s, step).writers == s.writers
  {
  }

  lemma UnsentStay<E, S, P>(m: Mosh<E, S, P>, s: State<E, S, P>, step: Step)
    requires Enabled(s, step) && !step.WriteFinish? && !step.WriteSubmit?
    ensures var b, c := s.books, Do(m, s, step).books;
            && c.epoch == b.epoch
            && forall e :: e in b.epochs && b.epochs[e].Unsent? ==> e in c.epochs && c.epochs[e].Unsent?
  {
    if !BookStep(step) {
      BooksUntouched(m, s, step);
      hide Do, Enabled;
    }
  }

  lemma {:induction false} RunKeepsSubmit<E, S, P>(m: Mosh<E, S, P>, s: State<E, S, P>, steps: seq<Step>)
    requires SubmitInv(s.writers, s.books) && Run(m, s, steps)
    ensures SubmitInv(After(m, s, steps).writers, After(m, s, steps).books)
    decreases steps
  {
    hide SubmitInv, Do, Enabled;
    if steps != [] {
      match steps[0] {
        case WriteFinish(w) => FinishKeepsSubmit(m, s, w);
        case WriteSubmit(w) => SubmitKeepsSubmit(m, s, w);
        case _ => OthersKeepSubmit(m, s, steps[0]);
      }
      RunKeepsSubmit(m, Do(m, s, steps[0]), steps[1..]);
    }
  }

  /** Every Write gets to start the callback of the epoch it opened. */
  lemma CallbackStarts<E, S, P>(m: Mosh<E, S, P>, interval: int, ids: set<nat>, now: int, steps: seq<Step>, w: nat)
    requires Run(m, Init(m, interval, ids, now), steps)
    requires var t := After(m, Init(m, interval, ids, now), steps); w in t.writers && t.writers[w].Submitting?
    ensures Enabled(After(m, Init(m, interval, ids, now), steps), WriteSubmit(w))
  {
    RunKeepsSubmit(m, Init(m, interval, ids, now), steps);
  }
}
