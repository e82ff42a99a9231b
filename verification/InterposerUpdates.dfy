/** The update notification of the interposer: nothing that changed is forgotten. */
module InterposerUpdates {
  import opened Basics
  import opened InterposerProtocol
  import opened InterposerEpochs

  // ----- who is about to notify -----

  ghost predicate WriterInFlight(wr: Writer) {
    wr.Notifying? || wr.Flagging?
  }

  ghost predicate EpochInFlight(e: Epoch) {
    e.Announcing? || e.Marking?
  }

  ghost predicate PullerInFlight<S>(puller: Puller<S>) {
    puller.Putting? || puller.Dropping?
  }

  /** Some notifier is past its change and has yet to hand over or to set the flag. */
  ghost predicate InFlight<E, S, P>(s: State<E, S, P>) {
    || (exists w :: w in s.writers && WriterInFlight(s.writers[w]))
    || (exists e :: e in s.books.epochs && EpochInFlight(s.books.epochs[e]))
    || PullerInFlight(s.puller)
  }

  /** The reader is past its gate and has yet to look at the state. */
  ghost predicate AboutToLook(reader: Reader) {
    reader.Clearing? || reader.Copying?
  }

  // ----- one step -----

  /** The step a notifier takes to be done, or to give up and set the flag next. */
  ghost predicate NotifierStep(step: Step) {
    step.WriteNotify? || step.WriteFlag? || step.CloseNotify? || step.CloseFlag? || step.PullNotify? || step.PullFlag?
  }

  /** A notifier that has run has either woken the reader, set the flag, or is about to set it. */
  lemma NotifierDone<E, S, P>(m: Mosh<E, S, P>, s: State<E, S, P>, step: Step)
    requires Enabled(s, step) && NotifierStep(step)
    ensures var t := Do(m, s, step); t.updates.dropped || AboutToLook(t.updates.reader) || InFlight(t)
  {
    var t := Do(m, s, step);
    match step
    case WriteNotify(w) => assert t.writers[w].Finishing? || WriterInFlight(t.writers[w]);
    case CloseNotify(e) => assert t.books.epochs[e].Finished? || EpochInFlight(t.books.epochs[e]);
    case _ =>
  }

  /**
   * Nobody else takes a notifier out of flight, nor the flag down, nor the reader off its way, except the frame itself.
   */
  lemma OthersLeave<E, S, P>(m: Mosh<E, S, P>, s: State<E, S, P>, step: Step)
    requires BooksInv(s.books, s.mutex) && Enabled(s, step) && !NotifierStep(step)
    ensures var t := Do(m, s, step);
            && (InFlight(s) ==> InFlight(t))
            && (s.updates.dropped ==> t.updates.dropped || t.updates.reader.Copying?)
            && (AboutToLook(s.updates.reader) ==> AboutToLook(t.updates.reader) || step.MakeFrame?)
  {
    var t := Do(m, s, step);
    if w :| w in s.writers && WriterInFlight(s.writers[w]) {
      assert WriterInFlight(t.writers[w]);
    } else if e :| e in s.books.epochs && EpochInFlight(s.books.epochs[e]) {
      OthersLeaveEpochs(m, s, step, e);
      assert EpochInFlight(t.books.epochs[e]);
    }
  }

  lemma OthersLeaveEpochs<E, S, P>(m: Mosh<E, S, P>, s: State<E, S, P>, step: Step, e: nat)
    requires Enabled(s, step) && !NotifierStep(step) && e in s.books.epochs && EpochInFlight(s.books.epochs[e])
    requires s.books.epoch + 1 !in s.books.epochs
    ensures e in Do(m, s, step).books.epochs && EpochInFlight(Do(m, s, step).books.epochs[e])
  {
    if !BookStep(step) {
      BooksUntouched(m, s, step);
      hide Do, Enabled;
    }
  }

  // ----- what there is to show -----

  /** Since the last Cull the prediction engine was told something else than that an epoch was sent, or a latency. */
  ghost predicate Untold<S>(calls: seq<Call<S>>) {
    calls != []
    && var last := calls[|calls| - 1];
       && !last.Culled?
       && ((!last.Sent? && !last.Interval?) || Untold(calls[..|calls| - 1]))
  }

  /** The complete screen is not the one the last frame was made from. */
  ghost predicate ScreenChanged<E, S, P>(s: State<E, S, P>) {
    var frames, c := s.clock.frames, s.screens;
    if frames == [] then c.completeIndex != 0
    else frames[|frames| - 1].index != c.completeIndex || frames[|frames| - 1].given != c.complete
  }

  /** The complete screen or the predictions changed since the last frame. */
  ghost predicate Changed<E, S, P>(s: State<E, S, P>) {
    ScreenChanged(s) || Untold(s.books.calls)
  }

  lemma UntoldSnoc<S>(calls: seq<Call<S>>, c: Call<S>)
    ensures Untold(calls + [c]) <==> !c.Culled? && ((!c.Sent? && !c.Interval?) || Untold(calls))
  {
    assert (calls + [c])[..|calls|] == calls;
  }

  /** A Write of no bytes has nothing to show. */
  lemma EmptyWriteShowsNothing<E, S, P>(m: Mosh<E, S, P>, s: State<E, S, P>, w: nat)
    requires Enabled(s, Write(w, []))
    ensures Untold(Do(m, s, Write(w, [])).books.calls) <==> Untold(s.books.calls)
  {
    var b, now := s.books, s.clock.now;
    assert Keys([], s.display.localState) == [];
    match b.pendingStarted
    case None => assert b.calls + Telling(b, now) + [] == b.calls;
    case Some(started) =>
      assert b.calls + Telling(b, now) + [] == b.calls + [Interval(now - started)];
      UntoldSnoc(b.calls, Interval(now - started));
  }

  /** Any other Write has. */
  lemma InputToShow<E, S, P>(m: Mosh<E, S, P>, s: State<E, S, P>, w: nat, p: seq<byte>)
    requires Enabled(s, Write(w, p)) && p != []
    ensures Untold(Do(m, s, Write(w, p)).books.calls)
  {
    var calls := Do(m, s, Write(w, p)).books.calls;
    assert calls[|calls| - 1] == UserByte(p[|p| - 1], s.display.localState);
  }

  /** The steps after which there is something new to show. */
  ghost predicate ChangeStep(step: Step) {
    (step.Write? && step.p != []) || step.Close? || step.Store?
  }

  lemma ScreenStays<E, S, P>(m: Mosh<E, S, P>, s: State<E, S, P>, step: Step)
    requires Enabled(s, step) && !step.Close? && !step.Store? && !step.MakeFrame?
    ensures var c, d := s.screens, Do(m, s, step).screens;
            c.complete == d.complete && c.completeIndex == d.completeIndex
    ensures Do(m, s, step).clock.frames == s.clock.frames
  {
  }

  lemma CallsStay<E, S, P>(m: Mosh<E, S, P>, s: State<E, S, P>, step: Step)
    requires Enabled(s, step) && !step.Write? && !step.WriteFinish? && !step.Close? && !step.MakeFrame?
    ensures Do(m, s, step).books.calls == s.books.calls
  {
  }

  lemma FinishShowsNothing<E, S, P>(m: Mosh<E, S, P>, s: State<E, S, P>, w: nat)
    requires Enabled(s, WriteFinish(w))
    ensures Untold(Do(m, s, WriteFinish(w)).books.calls) <==> Untold(s.books.calls)
  {
    UntoldSnoc(s.books.calls, Sent(s.books.epoch + 1));
  }

  lemma OthersShowNothing<E, S, P>(m: Mosh<E, S, P>, s: State<E, S, P>, step: Step)
    requires Enabled(s, step) && !ChangeStep(step) && !step.MakeFrame?
    ensures Changed(Do(m, s, step)) <==> Changed(s)
  {
    ScreenStays(m, s, step);
    if step.Write? {
      EmptyWriteShowsNothing(m, s, step.w);
    } else if step.WriteFinish? {
      FinishShowsNothing(m, s, step.w);
    } else {
      CallsStay(m, s, step);
    }
  }

  lemma FrameShowsAll<E, S, P>(m: Mosh<E, S, P>, s: State<E, S, P>)
    requires Enabled(s, MakeFrame)
    ensures !Changed(Do(m, s, MakeFrame))
  {
    UntoldSnoc(s.books.calls, Culled(s.screens.complete));
  }

  // ----- nothing is forgotten -----

  /** A change since the last frame is flagged, about to be notified, or about to be looked at. */
  ghost predicate Remembered<E, S, P>(s: State<E, S, P>) {
    Changed(s) ==> s.updates.dropped || AboutToLook(s.updates.reader) || InFlight(s)
  }

  /** A step after which there is something new to show brings its notifier along. */
  lemma ChangeAnnounced<E, S, P>(m: Mosh<E, S, P>, s: State<E, S, P>, step: Step)
    requires Enabled(s, step) && ChangeStep(step)
    ensures InFlight(Do(m, s, step))
  {
    var t := Do(m, s, step);
    match step
    case Write(w, p) => assert WriterInFlight(t.writers[w]);
    case Close(e) => assert EpochInFlight(t.books.epochs[e]);
    case Store =>
  }

  lemma StepKeepsRemembered<E, S, P>(m: Mosh<E, S, P>, s: State<E, S, P>, step: Step)
    requires BooksInv(s.books, s.mutex) && Remembered(s) && Enabled(s, step)
    ensures Remembered(Do(m, s, step))
  {
    hide BooksInv, Do, Enabled, InFlight, Changed;
    if NotifierStep(step) {
      NotifierDone(m, s, step);
    } else if ChangeStep(step) {
      ChangeAnnounced(m, s, step);
    } else if step.MakeFrame? {
      FrameShowsAll(m, s);
    } else {
      OthersShowNothing(m, s, step);
      OthersLeave(m, s, step);
    }
  }

  lemma {:induction false} RunKeepsRemembered<E, S, P>(m: Mosh<E, S, P>, s: State<E, S, P>, steps: seq<Step>)
    requires BooksInv(s.books, s.mutex) && Remembered(s) && Run(m, s, steps)
    ensures Remembered(After(m, s, steps))
    decreases steps
  {
    hide BooksInv, Remembered, Do, Enabled;
    if steps != [] {
      StepKeepsBooks(m, s, steps[0]);
      StepKeepsRemembered(m, s, steps[0]);
      RunKeepsRemembered(m, Do(m, s, steps[0]), steps[1..]);
    }
  }

  // ----- whole runs -----

  /**
   * If the complete screen or the predictions changed since the last frame, then the flag is set, a
   * notifier has yet to run, or the reader is past its gate and has yet to look.
   */
  lemma NothingForgotten<E, S, P>(m: Mosh<E, S, P>, interval: int, ids: set<nat>, now: int, steps: seq<Step>)
    requires Run(m, Init(m, interval, ids, now), steps)
    ensures var t := After(m, Init(m, interval, ids, now), steps);
            Changed(t) ==> t.updates.dropped || AboutToLook(t.updates.reader) || InFlight(t)
  {
    RunKeepsRemembered(m, Init(m, interval, ids, now), steps);
  }

  /** A Read that reaches its gate with a change to show and no notifier in flight goes on without blocking. */
  lemma GateDoesNotBlock<E, S, P>(m: Mosh<E, S, P>, interval: int, ids: set<nat>, now: int, steps: seq<Step>)
    requires Run(m, Init(m, interval, ids, now), steps)
    requires var t := After(m, Init(m, interval, ids, now), steps);
             t.updates.reader.AtGate? && Changed(t) && !InFlight(t)
    ensures var t := After(m, Init(m, interval, ids, now), steps);
            Do(m, t, Gate).updates.reader.Clearing?
  {
    NothingForgotten(m, interval, ids, now, steps);
  }

  /** And left to itself it then shows the complete screen and the predictions as they are at the gate. */
  lemma GateEmitsNewest<E, S, P>(m: Mosh<E, S, P>, interval: int, ids: set<nat>, now: int, steps: seq<Step>)
    requires Run(m, Init(m, interval, ids, now), steps)
    requires var t := After(m, Init(m, interval, ids, now), steps);
             t.updates.reader.AtGate? && Changed(t) && !InFlight(t) && t.mutex == None
    ensures var t := After(m, Init(m, interval, ids, now), steps);
            && Run(m, t, [Gate, Clear, MakeFrame])
            && var u := After(m, t, [Gate, Clear, MakeFrame]);
               && u.display.localState == m.overlay(m.cull(t.books.predictor, t.screens.complete), t.screens.complete)
               && u.updates.reader.Delivering?
               && u.updates.reader.emission
                  == m.newFrame(t.display.initialized, t.display.localState, u.display.localState)
               && !Changed(u) && !u.updates.dropped
  {
    var t := After(m, Init(m, interval, ids, now), steps);
    GateDoesNotBlock(m, interval, ids, now, steps);
    ThreeSteps(m, t, Gate, Clear, MakeFrame);
    FrameShowsAll(m, Do(m, Do(m, t, Gate), Clear));
  }

  lemma ThreeSteps<E, S, P>(m: Mosh<E, S, P>, s: State<E, S, P>, one: Step, two: Step, three: Step)
    requires Enabled(s, one) && Enabled(Do(m, s, one), two) && Enabled(Do(m, Do(m, s, one), two), three)
    ensures Run(m, s, [one, two, three])
    ensures After(m, s, [one, two, three]) == Do(m, Do(m, Do(m, s, one), two), three)
  {
    var t := Do(m, s, one);
    var u := Do(m, t, two);
    assert [one, two, three][1..] == [two, three] && [two, three][1..] == [three] && [three][1..] == [];
    assert Run(m, Do(m, u, three), []);
    assert Run(m, u, [three]) && After(m, u, [three]) == Do(m, u, three);
    assert Run(m, t, [two, three]) && After(m, t, [two, three]) == After(m, u, [three]);
  }

  /**
   * With nothing left to notify and no update remembered, the last frame was made from the complete screen as
   * it is now, and after its Cull the engine was told of no more than epochs sent and latencies.
   */
  lemma QuietMeansShown<E, S, P>(m: Mosh<E, S, P>, interval: int, ids: set<nat>, now: int, steps: seq<Step>)
    requires Run(m, Init(m, interval, ids, now), steps)
    requires var t := After(m, Init(m, interval, ids, now), steps);
             !InFlight(t) && !t.updates.dropped && !AboutToLook(t.updates.reader)
    ensures var t := After(m, Init(m, interval, ids, now), steps);
            var n := |t.clock.frames|;
            && !Untold(t.books.calls)
            && (n == 0 ==> t.screens.completeIndex == 0)
            && (n > 0 ==> t.clock.frames[n - 1].given == t.screens.complete
                          && t.clock.frames[n - 1].index == t.screens.completeIndex)
  {
    NothingForgotten(m, interval, ids, now, steps);
  }
}
