/** What the pending and the complete screen are, in every run of the interposer. */
module InterposerScreens {
  import opened Basics
  import opened InterposerProtocol

  // ----- screens and snapshots -----

  ghost predicate ScreensInv<E, S>(c: Screens<E, S>, puller: Puller<S>) {
    && c.snapshots != [] && c.completeIndex < |c.snapshots|
    && var last := |c.snapshots| - 1;
       && c.pending == c.snapshots[last].screen
       && c.complete == c.snapshots[c.completeIndex].screen
       && (puller.Storing? ==> puller.screen == c.snapshots[last].screen)
       && (puller.Got? ==> c.snapshots[last].reach <= c.arriving)
       && (forall j, k :: 0 <= j <= k <= last ==> c.snapshots[j].reach <= c.snapshots[k].reach)
  }

  ghost predicate BetweenChunks<S>(puller: Puller<S>) {
    puller.Pulling? || puller.Got? || puller.Putting? || puller.Dropping?
  }

  /** With no epoch pending and the puller not in the middle of a chunk, the complete screen is the pending one. */
  ghost predicate CaughtUp<E, S, P>(s: State<E, S, P>) {
    BetweenChunks(s.puller) && !s.books.pendingEpoch ==> s.screens.completeIndex == |s.screens.snapshots| - 1
  }

  ghost predicate Sound<E, S, P>(s: State<E, S, P>) {
    ScreensInv(s.screens, s.puller) && CaughtUp(s)
  }

  ghost predicate Onward<E, S>(c: Screens<E, S>, d: Screens<E, S>) {
    c.snapshots <= d.snapshots && c.completeIndex <= d.completeIndex
  }

  ghost predicate PullerStep(step: Step) {
    step.Pull? || step.Perform? || step.Check? || step.Load? || step.Store? || step.PullNotify? || step.PullFlag?
  }

  lemma PullerKeepsSound<E, S, P>(m: Mosh<E, S, P>, s: State<E, S, P>, step: Step)
    requires Sound(s) && Enabled(s, step) && PullerStep(step)
    ensures Sound(Do(m, s, step)) && Onward(s.screens, Do(m, s, step).screens)
  {
    if step.Perform? {
      PerformKeepsSound(m, s);
      hide Do, Sound;
    } else if step.Store? {
      StoreKeepsSound(m, s);
      hide Do, Sound;
    } else {
      PullerLeavesScreens(m, s, step);
      hide Do;
    }
  }

  lemma PerformKeepsSound<E, S, P>(m: Mosh<E, S, P>, s: State<E, S, P>)
    requires Sound(s) && Enabled(s, Perform)
    ensures Sound(Do(m, s, Perform)) && Onward(s.screens, Do(m, s, Perform).screens)
  {
  }

  lemma StoreKeepsSound<E, S, P>(m: Mosh<E, S, P>, s: State<E, S, P>)
    requires Sound(s) && Enabled(s, Store)
    ensures Sound(Do(m, s, Store)) && Onward(s.screens, Do(m, s, Store).screens)
  {
  }

  /** The other steps of the puller. */
  lemma PullerLeavesScreens<E, S, P>(m: Mosh<E, S, P>, s: State<E, S, P>, step: Step)
    requires Sound(s) && Enabled(s, step) && PullerStep(step) && !step.Perform? && !step.Store?
    ensures var t := Do(m, s, step);
            && t.books == s.books && t.screens == s.screens.(arriving := t.screens.arriving)
            && s.screens.snapshots != []
            && (t.puller.Got? ==> t.screens.snapshots[|t.screens.snapshots| - 1].reach <= t.screens.arriving)
            && (t.puller.Storing? ==> t.puller.screen == s.screens.pending)
            && (BetweenChunks(t.puller) ==> BetweenChunks(s.puller) || s.books.pendingEpoch)
  {
  }

  lemma OthersKeepSound<E, S, P>(m: Mosh<E, S, P>, s: State<E, S, P>, step: Step)
    requires Sound(s) && Enabled(s, step) && !PullerStep(step)
    ensures Sound(Do(m, s, step)) && Onward(s.screens, Do(m, s, step).screens)
  {
  }

  lemma {:induction false} RunKeepsSound<E, S, P>(m: Mosh<E, S, P>, s: State<E, S, P>, steps: seq<Step>)
    requires Sound(s) && Run(m, s, steps)
    ensures Sound(After(m, s, steps)) && Onward(s.screens, After(m, s, steps).screens)
    decreases steps
  {
    hide Sound, Do, Enabled;
    if steps != [] {
      if PullerStep(steps[0]) {
        PullerKeepsSound(m, s, steps[0]);
      } else {
        OthersKeepSound(m, s, steps[0]);
      }
      RunKeepsSound(m, Do(m, s, steps[0]), steps[1..]);
    }
  }

  // ----- what a snapshot is -----

  ghost function Emulate<E, S, P>(m: Mosh<E, S, P>, events: seq<Event>): E {
    if events == [] then m.emulator
    else
      var before := Emulate(m, events[..|events| - 1]);
      match events[|events| - 1]
      case Performed(chunk) => m.perform(before, chunk)
      case Acted(b) => m.act(before, b)
  }

  /** The chunks from upstream among the events. */
  ghost function Chunks(events: seq<Event>): seq<seq<byte>> {
    if events == [] then []
    else
      Chunks(events[..|events| - 1])
      + match events[|events| - 1] case Performed(chunk) => [chunk] case Acted(_) => []
  }

  /** The k-th snapshot is the emulator's framebuffer right after the k-th chunk from upstream. */
  ghost predicate Recorded<E, S, P>(m: Mosh<E, S, P>, events: seq<Event>, snap: Snapshot<S>, k: nat) {
    && snap.at <= |events|
    && (k == 0 ==> snap.screen == m.blank)
    && (k > 0 ==>
          && |Chunks(events[..snap.at])| == k && snap.at > 0 && events[snap.at - 1].Performed?
          && snap.screen == m.screen(Emulate(m, events[..snap.at])))
  }

  ghost predicate Emulated<E, S, P>(m: Mosh<E, S, P>, c: Screens<E, S>) {
    && c.emulator == Emulate(m, c.events)
    && c.snapshots != [] && |Chunks(c.events)| == |c.snapshots| - 1
    && forall k :: 0 <= k < |c.snapshots| ==> Recorded(m, c.events, c.snapshots[k], k)
  }

  lemma RecordedExtends<E, S, P>(m: Mosh<E, S, P>, events: seq<Event>, more: seq<Event>, snap: Snapshot<S>, k: nat)
    requires Recorded(m, events, snap, k)
    ensures Recorded(m, events + more, snap, k)
  {
    assert (events + more)[..snap.at] == events[..snap.at];
  }

  lemma EventSnoc<E, S, P>(m: Mosh<E, S, P>, events: seq<Event>, e: Event)
    ensures Emulate(m, events + [e]) == match e case Performed(c) => m.perform(Emulate(m, events), c)
                                                case Acted(b) => m.act(Emulate(m, events), b)
    ensures Chunks(events + [e]) == Chunks(events) + match e case Performed(c) => [c] case Acted(_) => []
  {
    assert (events + [e])[..|events|] == events;
  }

  lemma {:induction false} TypeEmulates<E, S, P>(m: Mosh<E, S, P>, events: seq<Event>, predictor: P, local: S,
                                                 p: seq<byte>)
    ensures Type(m, Emulate(m, events), predictor, local, p).emulator == Emulate(m, events + Acts(p))
    ensures Chunks(events + Acts(p)) == Chunks(events)
    decreases |p|
  {
    if p == [] {
      assert events + Acts(p) == events;
    } else {
      var front, b := p[..|p| - 1], p[|p| - 1];
      TypeEmulates(m, events, predictor, local, front);
      EventSnoc(m, events + Acts(front), Acted(b));
      assert Chunks(events + Acts(front)) + [] == Chunks(events + Acts(front));
      assert events + Acts(p) == (events + Acts(front)) + [Acted(b)];
    }
  }

  lemma WriteKeepsEmulated<E, S, P>(m: Mosh<E, S, P>, s: State<E, S, P>, w: nat, p: seq<byte>)
    requires Emulated(m, s.screens) && Enabled(s, Write(w, p))
    ensures Emulated(m, Do(m, s, Write(w, p)).screens)
  {
    var c := s.screens;
    TypeEmulates(m, c.events, Told(m, s.books, s.clock.now), s.display.localState, p);
    forall k | 0 <= k < |c.snapshots| ensures Recorded(m, c.events + Acts(p), c.snapshots[k], k) {
      RecordedExtends(m, c.events, Acts(p), c.snapshots[k], k);
    }
  }

  lemma PerformKeepsEmulated<E, S, P>(m: Mosh<E, S, P>, c: Screens<E, S>, chunk: seq<byte>)
    requires Emulated(m, c)
    ensures Emulated(m, Performing(m, c, chunk))
  {
    var e, d := Performed(chunk), Performing(m, c, chunk);
    EventSnoc(m, c.events, e);
    assert d.events[..|d.events|] == d.events;
    forall k | 0 <= k < |d.snapshots| ensures Recorded(m, d.events, d.snapshots[k], k) {
      if k < |c.snapshots| {
        RecordedExtends(m, c.events, [e], c.snapshots[k], k);
      }
    }
  }

  lemma StepKeepsEmulated<E, S, P>(m: Mosh<E, S, P>, s: State<E, S, P>, step: Step)
    requires Emulated(m, s.screens) && Enabled(s, step)
    ensures Emulated(m, Do(m, s, step).screens)
  {
    match step
    case Write(w, p) => WriteKeepsEmulated(m, s, w, p);
    case Perform => PerformKeepsEmulated(m, s.screens, s.puller.chunk);
    case Pull(_, _) => assert Do(m, s, step).screens == s.screens.(arriving := Do(m, s, step).screens.arriving);
    case Store => assert Do(m, s, step).screens.events == s.screens.events;
    case Close(e) => assert Do(m, s, step).screens.events == s.screens.events;
    case _ => ScreensUntouched(m, s, step);
  }

  lemma ScreensUntouched<E, S, P>(m: Mosh<E, S, P>, s: State<E, S, P>, step: Step)
    requires Enabled(s, step) && !step.Write? && !step.Pull? && !step.Perform? && !step.Store? && !step.Close?
    ensures Do(m, s, step).screens == s.screens
  {
  }

  lemma {:induction false} RunKeepsEmulated<E, S, P>(m: Mosh<E, S, P>, s: State<E, S, P>, steps: seq<Step>)
    requires Emulated(m, s.screens) && Run(m, s, steps)
    ensures Emulated(m, After(m, s, steps).screens)
    decreases steps
  {
    hide Emulated, Do, Enabled;
    if steps != [] {
      StepKeepsEmulated(m, s, steps[0]);
      RunKeepsEmulated(m, Do(m, s, steps[0]), steps[1..]);
    }
  }

  /**
   * In every run the complete screen is the framebuffer recorded after the first `completeIndex` chunks
   * from upstream, the pending screen the one after all performed chunks; with no epoch pending and the
   * puller between chunks they are the same.
   */
  lemma ScreensAreRecorded<E, S, P>(m: Mosh<E, S, P>, interval: int, ids: set<nat>, now: int, steps: seq<Step>)
    requires Run(m, Init(m, interval, ids, now), steps)
    ensures var t := After(m, Init(m, interval, ids, now), steps);
            var c := t.screens;
            && c.completeIndex <= |Chunks(c.events)| == |c.snapshots| - 1
            && c.complete == c.snapshots[c.completeIndex].screen
            && c.pending == c.snapshots[|c.snapshots| - 1].screen
            && (forall k :: 0 <= k < |c.snapshots| ==> Recorded(m, c.events, c.snapshots[k], k))
            && (!t.books.pendingEpoch && BetweenChunks(t.puller) ==> c.complete == c.pending)
  {
    RunKeepsSound(m, Init(m, interval, ids, now), steps);
    RunKeepsEmulated(m, Init(m, interval, ids, now), steps);
  }

  /** The prefix of upstream chunks on the complete screen never shrinks. */
  lemma NeverBackwards<E, S, P>(m: Mosh<E, S, P>, interval: int, ids: set<nat>, now: int,
                                steps: seq<Step>, more: seq<Step>)
    requires Run(m, Init(m, interval, ids, now), steps)
    requires Run(m, After(m, Init(m, interval, ids, now), steps), more)
    ensures var t := After(m, Init(m, interval, ids, now), steps); Onward(t.screens, After(m, t, more).screens)
  {
    RunKeepsSound(m, Init(m, interval, ids, now), steps);
    RunKeepsSound(m, After(m, Init(m, interval, ids, now), steps), more);
  }

  // ----- while an epoch is pending -----

  ghost predicate StaysPending<E, S, P>(m: Mosh<E, S, P>, s: State<E, S, P>, steps: seq<Step>)
    requires Run(m, s, steps)
    decreases steps
  {
    s.books.pendingEpoch && (steps == [] || StaysPending(m, Do(m, s, steps[0]), steps[1..]))
  }

  ghost function Stores(steps: seq<Step>): nat
    decreases steps
  {
    if steps == [] then 0 else (if steps[0].Store? then 1 else 0) + Stores(steps[1..])
  }

  /**
   * While an epoch stays pending, the puller replaces the complete screen at most once, with a copy it had already
   * decided on.
   */
  lemma {:induction false} AtMostOneStore<E, S, P>(m: Mosh<E, S, P>, s: State<E, S, P>, steps: seq<Step>)
    requires Run(m, s, steps) && StaysPending(m, s, steps)
    ensures Stores(steps) <= if s.puller.Loading? || s.puller.Storing? then 1 else 0
    decreases steps
  {
    if steps != [] {
      PendingStep(m, s, steps[0]);
      AtMostOneStore(m, Do(m, s, steps[0]), steps[1..]);
    }
  }

  /** Apart from that copy, only CloseEpoch replaces the complete screen. */
  lemma {:induction false} HeldBack<E, S, P>(m: Mosh<E, S, P>, s: State<E, S, P>, steps: seq<Step>)
    requires Run(m, s, steps) && StaysPending(m, s, steps)
    requires !s.puller.Loading? && !s.puller.Storing?
    requires forall i :: 0 <= i < |steps| ==> !steps[i].Close?
    ensures var c := After(m, s, steps).screens;
            c.complete == s.screens.complete && c.completeIndex == s.screens.completeIndex
    decreases steps
  {
    if steps != [] {
      PendingStep(m, s, steps[0]);
      HeldBack(m, Do(m, s, steps[0]), steps[1..]);
    }
  }

  lemma PendingStep<E, S, P>(m: Mosh<E, S, P>, s: State<E, S, P>, step: Step)
    requires Enabled(s, step) && s.books.pendingEpoch
    ensures var t := Do(m, s, step);
            && (step.Store? ==> s.puller.Storing? && !t.puller.Loading? && !t.puller.Storing?)
            && (t.puller.Loading? || t.puller.Storing? ==> s.puller.Loading? || s.puller.Storing?)
            && (!step.Store? && !step.Close? ==>
                  t.screens.complete == s.screens.complete && t.screens.completeIndex == s.screens.completeIndex)
  {
  }
}
