/** What the prediction engine is told, in every run of the interposer. */
module InterposerPredictor {
  import opened Basics
  import opened InterposerProtocol
  import opened InterposerEpochs
  import opened InterposerContract

  /** The prediction engine after a sequence of calls. */
  ghost function Engine<E, S, P>(m: Mosh<E, S, P>, calls: seq<Call<S>>): P {
    if calls == [] then m.engine
    else
      var before := Engine(m, calls[..|calls| - 1]);
      match calls[|calls| - 1]
      case UserByte(b, local) => m.newUserByte(before, b, local)
      case Sent(e) => m.frameSent(before, e)
      case Acked(e) => m.frameAcked(before, e)
      case LateAcked(e) => m.frameLateAcked(before, e)
      case Interval(latency) => m.sendInterval(before, latency)
      case Culled(screen) => m.cull(before, screen)
  }

  /** The epochs the engine was told are sent. */
  ghost function Sents<S>(calls: seq<Call<S>>): seq<nat> {
    if calls == [] then []
    else Sents(calls[..|calls| - 1]) + if calls[|calls| - 1].Sent? then [calls[|calls| - 1].e] else []
  }

  ghost function LastAcked<S>(calls: seq<Call<S>>): nat {
    if calls == [] then 0
    else if calls[|calls| - 1].Acked? then calls[|calls| - 1].e
    else LastAcked(calls[..|calls| - 1])
  }

  /** The framebuffers given to Cull, each with the epoch last acknowledged before. */
  ghost function Culls<S>(calls: seq<Call<S>>): seq<(S, nat)> {
    if calls == [] then []
    else
      var before, last := calls[..|calls| - 1], calls[|calls| - 1];
      Culls(before) + if last.Culled? then [(last.screen, LastAcked(before))] else []
  }

  /** Whatever is acknowledged has been sent before. */
  ghost predicate AckedAfterSent<S>(calls: seq<Call<S>>) {
    calls == []
    || (AckedAfterSent(calls[..|calls| - 1])
        && (calls[|calls| - 1].Acked? || calls[|calls| - 1].LateAcked? ==>
              calls[|calls| - 1].e in Sents(calls[..|calls| - 1])))
  }

  lemma CallSnoc<S>(calls: seq<Call<S>>, c: Call<S>)
    ensures Sents(calls + [c]) == Sents(calls) + if c.Sent? then [c.e] else []
    ensures Culls(calls + [c]) == Culls(calls) + if c.Culled? then [(c.screen, LastAcked(calls))] else []
    ensures LastAcked(calls + [c]) == if c.Acked? then c.e else LastAcked(calls)
    ensures AckedAfterSent(calls + [c]) <==>
              AckedAfterSent(calls) && (c.Acked? || c.LateAcked? ==> c.e in Sents(calls))
  {
    assert (calls + [c])[..|calls|] == calls;
  }

  lemma EngineSnoc<E, S, P>(m: Mosh<E, S, P>, calls: seq<Call<S>>, c: Call<S>)
    ensures Engine(m, calls + [c])
         == match c
            case UserByte(b, local) => m.newUserByte(Engine(m, calls), b, local)
            case Sent(e) => m.frameSent(Engine(m, calls), e)
            case Acked(e) => m.frameAcked(Engine(m, calls), e)
            case LateAcked(e) => m.frameLateAcked(Engine(m, calls), e)
            case Interval(latency) => m.sendInterval(Engine(m, calls), latency)
            case Culled(screen) => m.cull(Engine(m, calls), screen)
  {
    assert (calls + [c])[..|calls|] == calls;
  }

  /** 1, 2, ..., n */
  ghost function Counted(n: nat): seq<nat> {
    if n == 0 then [] else Counted(n - 1) + [n]
  }

  lemma {:induction false} InCounted(n: nat, e: nat)
    ensures e in Counted(n) <==> 1 <= e <= n
  {
    if n > 0 {
      InCounted(n - 1, e);
    }
  }

  /** What the frames were made from, each with the epoch last acknowledged by then. */
  ghost function Givens<S>(frames: seq<Frame<S>>): (givens: seq<(S, nat)>)
    ensures |givens| == |frames|
    ensures forall i :: 0 <= i < |frames| ==> givens[i] == (frames[i].given, frames[i].acked)
  {
    if frames == [] then []
    else Givens(frames[..|frames| - 1]) + [(frames[|frames| - 1].given, frames[|frames| - 1].acked)]
  }

  /** The log is in order: epochs are sent as counted, acknowledged after that, and culls are those of the frames. */
  ghost predicate Orderly<S, P>(b: Books<S, P>, frames: seq<Frame<S>>) {
    && Sents(b.calls) == Counted(b.epoch)
    && LastAcked(b.calls) == b.lastAcked
    && AckedAfterSent(b.calls)
    && Culls(b.calls) == Givens(frames)
  }

  ghost predicate InStep<E, S, P>(m: Mosh<E, S, P>, s: State<E, S, P>) {
    s.books.predictor == Engine(m, s.books.calls) && Orderly(s.books, s.clock.frames)
  }

  lemma {:induction false} TypeTells<E, S, P>(m: Mosh<E, S, P>, emulator: E, calls: seq<Call<S>>, local: S,
                                              p: seq<byte>)
    ensures Type(m, emulator, Engine(m, calls), local, p).predictor == Engine(m, calls + Keys(p, local))
    ensures var all := calls + Keys(p, local);
            && Sents(all) == Sents(calls) && Culls(all) == Culls(calls) && LastAcked(all) == LastAcked(calls)
            && (AckedAfterSent(calls) ==> AckedAfterSent(all))
    decreases |p|
  {
    if p == [] {
      assert calls + Keys(p, local) == calls;
    } else {
      var front, b := p[..|p| - 1], p[|p| - 1];
      var before := calls + Keys(front, local);
      TypeTells(m, emulator, calls, local, front);
      EngineSnoc(m, before, UserByte(b, local));
      CallSnoc(before, UserByte(b, local));
      assert Sents(before) + [] == Sents(before) && Culls(before) + [] == Culls(before);
      assert calls + Keys(p, local) == before + [UserByte(b, local)];
    }
  }

  lemma LatencyTold<E, S, P>(m: Mosh<E, S, P>, b: Books<S, P>, now: int)
    requires b.predictor == Engine(m, b.calls)
    ensures var calls := b.calls + Telling(b, now);
            && Told(m, b, now) == Engine(m, calls)
            && Sents(calls) == Sents(b.calls) && Culls(calls) == Culls(b.calls)
            && LastAcked(calls) == LastAcked(b.calls)
            && (AckedAfterSent(b.calls) ==> AckedAfterSent(calls))
  {
    match b.pendingStarted
    case None => assert b.calls + [] == b.calls;
    case Some(started) =>
      EngineSnoc(m, b.calls, Interval(now - started));
      CallSnoc(b.calls, Interval(now - started));
      assert Sents(b.calls) + [] == Sents(b.calls) && Culls(b.calls) + [] == Culls(b.calls);
  }

  lemma WriteInStep<E, S, P>(m: Mosh<E, S, P>, s: State<E, S, P>, w: nat, p: seq<byte>)
    requires InStep(m, s) && Enabled(s, Write(w, p))
    ensures InStep(m, Do(m, s, Write(w, p)))
  {
    var b, now := s.books, s.clock.now;
    LatencyTold(m, b, now);
    TypeTells(m, s.screens.emulator, b.calls + Telling(b, now), s.display.localState, p);
  }

  lemma FinishInStep<E, S, P>(m: Mosh<E, S, P>, s: State<E, S, P>, w: nat)
    requires InStep(m, s) && Enabled(s, WriteFinish(w))
    ensures InStep(m, Do(m, s, WriteFinish(w)))
  {
    var calls, e := s.books.calls, s.books.epoch + 1;
    EngineSnoc(m, calls, Sent(e));
    CallSnoc(calls, Sent(e));
    assert Culls(calls) + [] == Culls(calls);
  }

  lemma ThreeCalls<E, S, P>(m: Mosh<E, S, P>, calls: seq<Call<S>>, e: nat, latency: int)
    requires AckedAfterSent(calls) && e in Sents(calls)
    ensures var all := calls + [Acked(e), LateAcked(e), Interval(latency)];
            && Engine(m, all) == m.sendInterval(m.frameLateAcked(m.frameAcked(Engine(m, calls), e), e), latency)
            && Sents(all) == Sents(calls) && Culls(all) == Culls(calls) && LastAcked(all) == e && AckedAfterSent(all)
  {
    var one, two := calls + [Acked(e)], calls + [Acked(e)] + [LateAcked(e)];
    EngineSnoc(m, calls, Acked(e));
    CallSnoc(calls, Acked(e));
    EngineSnoc(m, one, LateAcked(e));
    CallSnoc(one, LateAcked(e));
    EngineSnoc(m, two, Interval(latency));
    CallSnoc(two, Interval(latency));
    assert calls + [Acked(e), LateAcked(e), Interval(latency)] == two + [Interval(latency)];
  }

  lemma CloseInStep<E, S, P>(m: Mosh<E, S, P>, s: State<E, S, P>, e: nat)
    requires InStep(m, s) && BooksInv(s.books, s.mutex) && Enabled(s, Close(e))
    ensures InStep(m, Do(m, s, Close(e)))
  {
    InCounted(s.books.epoch, e);
    ThreeCalls(m, s.books.calls, e, s.clock.now - s.books.epochs[e].openedAt);
  }

  lemma FrameInStep<E, S, P>(m: Mosh<E, S, P>, s: State<E, S, P>)
    requires InStep(m, s) && Enabled(s, MakeFrame)
    ensures InStep(m, Do(m, s, MakeFrame))
  {
    var calls, c := s.books.calls, Culled(s.screens.complete);
    var frames, n := Do(m, s, MakeFrame).clock.frames, |s.clock.frames|;
    EngineSnoc(m, calls, c);
    CallSnoc(calls, c);
    assert Sents(calls) + [] == Sents(calls);
    assert frames[..n] == s.clock.frames;
  }

  lemma OthersInStep<E, S, P>(m: Mosh<E, S, P>, s: State<E, S, P>, step: Step)
    requires InStep(m, s) && Enabled(s, step)
    requires !step.Write? && !step.WriteFinish? && !step.Close? && !step.MakeFrame?
    ensures InStep(m, Do(m, s, step))
  {
    var t := Do(m, s, step);
    assert t.books == s.books.(epochs := t.books.epochs);
    assert t.clock.frames == s.clock.frames;
  }

  lemma StepKeepsInStep<E, S, P>(m: Mosh<E, S, P>, s: State<E, S, P>, step: Step)
    requires InStep(m, s) && BooksInv(s.books, s.mutex) && Enabled(s, step)
    ensures InStep(m, Do(m, s, step))
  {
    hide InStep, BooksInv, Do, Enabled;
    match step
    case Write(w, p) => WriteInStep(m, s, w, p);
    case WriteFinish(w) => FinishInStep(m, s, w);
    case Close(e) => CloseInStep(m, s, e);
    case MakeFrame => FrameInStep(m, s);
    case _ => OthersInStep(m, s, step);
  }

  lemma {:induction false} RunInStep<E, S, P>(m: Mosh<E, S, P>, s: State<E, S, P>, steps: seq<Step>)
    requires InStep(m, s) && BooksInv(s.books, s.mutex) && Run(m, s, steps)
    ensures InStep(m, After(m, s, steps))
    decreases steps
  {
    hide InStep, BooksInv, Do, Enabled;
    if steps != [] {
      StepKeepsBooks(m, s, steps[0]);
      StepKeepsInStep(m, s, steps[0]);
      RunInStep(m, Do(m, s, steps[0]), steps[1..]);
    }
  }

  /**
   * The prediction engine is told of the epochs 1, 2, 3, ... as sent, each once and in this order, and every
   * epoch it is told is acknowledged was sent before; it is never told anything else than the log says.
   */
  lemma EngineIsTold<E, S, P>(m: Mosh<E, S, P>, interval: int, ids: set<nat>, now: int, steps: seq<Step>)
    requires Run(m, Init(m, interval, ids, now), steps)
    ensures var b := After(m, Init(m, interval, ids, now), steps).books;
            && b.predictor == Engine(m, b.calls)
            && Sents(b.calls) == Counted(b.epoch)
            && AckedAfterSent(b.calls) && LastAcked(b.calls) == b.lastAcked
  {
    RunInStep(m, Init(m, interval, ids, now), steps);
  }

  /**
   * If every close finds its input performed, every framebuffer given to Cull is a snapshot that reflects the
   * epoch last acknowledged to the engine before.
   */
  lemma CullsReflectAcks<E, S, P>(m: Mosh<E, S, P>, interval: int, ids: set<nat>, now: int, steps: seq<Step>, i: nat)
    requires Run(m, Init(m, interval, ids, now), steps) && ClosesPerformed(m, Init(m, interval, ids, now), steps)
    requires i < |Culls(After(m, Init(m, interval, ids, now), steps).books.calls)|
    ensures var t := After(m, Init(m, interval, ids, now), steps);
            var (screen, acked) := Culls(t.books.calls)[i];
            exists k :: 0 <= k < |t.screens.snapshots|
                     && screen == t.screens.snapshots[k].screen && acked <= t.screens.snapshots[k].reach
  {
    RunInStep(m, Init(m, interval, ids, now), steps);
    FramesReflectAcks(m, interval, ids, now, steps, i);
  }
}
