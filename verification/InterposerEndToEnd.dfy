/** What the user sees once everything is quiet: the remote screen as it is, with the predictions on top. */
module InterposerEndToEnd {
  import opened Basics
  import opened InterposerProtocol
  import opened InterposerScreens
  import opened InterposerEpochs
  import opened InterposerContract
  import opened InterposerPredictor
  import opened InterposerUpdates
  import opened InterposerClient

  /** The calls into the prediction engine up to its last Cull. */
  ghost function UpToCull<S>(calls: seq<Call<S>>): seq<Call<S>> {
    if calls == [] || calls[|calls| - 1].Culled? then calls else UpToCull(calls[..|calls| - 1])
  }

  ghost predicate NoCull<S>(calls: seq<Call<S>>) {
    forall i :: 0 <= i < |calls| ==> !calls[i].Culled?
  }

  lemma {:induction false} CullStays<S>(calls: seq<Call<S>>, more: seq<Call<S>>)
    requires NoCull(more)
    ensures UpToCull(calls + more) == UpToCull(calls)
    decreases |more|
  {
    if more == [] {
      assert calls + more == calls;
    } else {
      var front := more[..|more| - 1];
      CullStays(calls, front);
      assert (calls + more)[..|calls + more| - 1] == calls + front;
    }
  }

  /** The last frame shows what the engine, as of its last Cull, laid over the screen it was given. */
  ghost predicate LastShown<E, S, P>(m: Mosh<E, S, P>, calls: seq<Call<S>>, frames: seq<Frame<S>>) {
    frames != [] ==>
      var f := frames[|frames| - 1]; f.shown == m.overlay(Engine(m, UpToCull(calls)), f.given)
  }

  /** Only a frame culls. */
  lemma OthersDoNotCull<E, S, P>(m: Mosh<E, S, P>, s: State<E, S, P>, step: Step) returns (more: seq<Call<S>>)
    requires Enabled(s, step) && !step.MakeFrame?
    ensures Do(m, s, step).books.calls == s.books.calls + more && NoCull(more)
    ensures Do(m, s, step).clock.frames == s.clock.frames
  {
    var calls := s.books.calls;
    SameFrames(m, s, step);
    if step.Write? {
      var told, keys := Telling(s.books, s.clock.now), Keys(step.p, s.display.localState);
      more := told + keys;
      assert calls + told + keys == calls + more;
    } else if step.WriteFinish? {
      more := [Sent(s.books.epoch + 1)];
    } else if step.Close? {
      more := [Acked(step.e), LateAcked(step.e), Interval(s.clock.now - s.books.epochs[step.e].openedAt)];
    } else {
      CallsStay(m, s, step);
      hide Do;
      more := [];
      assert calls + more == calls;
    }
  }

  lemma CullShown<E, S, P>(m: Mosh<E, S, P>, calls: seq<Call<S>>, frames: seq<Frame<S>>, f: Frame<S>)
    requires f.shown == m.overlay(m.cull(Engine(m, calls), f.given), f.given)
    ensures LastShown(m, calls + [Culled(f.given)], frames + [f])
  {
    EngineSnoc(m, calls, Culled(f.given));
    LastIsCull(calls, Culled(f.given));
    hide Engine, UpToCull;
    assert (frames + [f])[|frames|] == f;
  }

  lemma LastIsCull<S>(calls: seq<Call<S>>, c: Call<S>)
    requires c.Culled?
    ensures UpToCull(calls + [c]) == calls + [c]
  {
  }

  lemma FrameShown<E, S, P>(m: Mosh<E, S, P>, s: State<E, S, P>)
    requires InStep(m, s) && Enabled(s, MakeFrame)
    ensures LastShown(m, Do(m, s, MakeFrame).books.calls, Do(m, s, MakeFrame).clock.frames)
  {
    hide Engine, UpToCull, LastShown;
    var f := Do(m, s, MakeFrame).clock.frames[|s.clock.frames|];
    CullShown(m, s.books.calls, s.clock.frames, f);
  }

  lemma StepKeepsShown<E, S, P>(m: Mosh<E, S, P>, s: State<E, S, P>, step: Step)
    requires InStep(m, s) && LastShown(m, s.books.calls, s.clock.frames) && Enabled(s, step)
    ensures LastShown(m, Do(m, s, step).books.calls, Do(m, s, step).clock.frames)
  {
    hide InStep, Do, Enabled;
    if step.MakeFrame? {
      FrameShown(m, s);
    } else {
      var more := OthersDoNotCull(m, s, step);
      CullStays(s.books.calls, more);
    }
  }

  lemma {:induction false} RunKeepsShown<E, S, P>(m: Mosh<E, S, P>, s: State<E, S, P>, steps: seq<Step>)
    requires InStep(m, s) && BooksInv(s.books, s.mutex) && LastShown(m, s.books.calls, s.clock.frames)
    requires Run(m, s, steps)
    ensures LastShown(m, After(m, s, steps).books.calls, After(m, s, steps).clock.frames)
    decreases steps
  {
    hide InStep, BooksInv, LastShown, Do, Enabled;
    if steps != [] {
      StepKeepsShown(m, s, steps[0]);
      StepKeepsInStep(m, s, steps[0]);
      StepKeepsBooks(m, s, steps[0]);
      RunKeepsShown(m, Do(m, s, steps[0]), steps[1..]);
    }
  }

  /** Nobody is about to change or to show anything, and the client has read everything. */
  ghost predicate AllQuiet<E, S, P>(t: State<E, S, P>) {
    && !InFlight(t) && !t.updates.dropped && t.updates.reader.Away? && InterposerClient.Waiting(t.display) == []
    && !t.books.pendingEpoch && BetweenChunks(t.puller)
  }

  /**
   * Once a first frame has been made and everything is quiet, the client's terminal, given all bytes read, shows
   * the remote screen after all chunks performed, with what the prediction engine laid over it at its last Cull;
   * and since then the engine was told of nothing but epochs sent and latencies.
   */
  lemma UserSeesRemoteScreen<E, S(!new), P, K(!new)>(m: Mosh<E, S, P>, c: Terminal<K, S>, start: K,
                                                     interval: int, ids: set<nat>, now: int, steps: seq<Step>)
    requires Lawful(m, c) && Run(m, Init(m, interval, ids, now), steps)
    requires var t := After(m, Init(m, interval, ids, now), steps); t.clock.frames != [] && AllQuiet(t)
    ensures var t := After(m, Init(m, interval, ids, now), steps);
            && c.shows(c.patch(start, t.display.output),
                       m.overlay(Engine(m, UpToCull(t.books.calls)), t.screens.pending))
            && !Untold(t.books.calls)
  {
    DrainedClient(m, c, start, interval, ids, now, steps);
    QuietMeansShown(m, interval, ids, now, steps);
    ScreensAreRecorded(m, interval, ids, now, steps);
    RunKeepsShown(m, Init(m, interval, ids, now), steps);
    hide Run, After, Lawful, Engine, UpToCull, Untold, Recorded, Chunks, InFlight;
  }
}
