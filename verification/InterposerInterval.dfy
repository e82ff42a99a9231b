/** Exactly when the interposer keeps its coalesce interval between two frames for upstream data. */
module InterposerInterval {
  import opened Basics
  import opened InterposerProtocol
  import opened InterposerScreens
  import opened InterposerRate

  // ----- later frames leave the earlier ones alone -----

  lemma {:induction false} PlainGrows<S>(frames: seq<Frame<S>>, more: seq<Frame<S>>)
    requires frames <= more
    ensures Plain(frames) <= Plain(more)
    decreases |more|
  {
    if frames != more {
      PlainGrows(frames, more[..|more| - 1]);
    }
  }

  lemma {:induction false} FramesGrow<E, S, P>(m: Mosh<E, S, P>, s: State<E, S, P>, steps: seq<Step>)
    requires Run(m, s, steps)
    ensures s.clock.frames <= After(m, s, steps).clock.frames
    decreases steps
  {
    hide Do, Enabled;
    if steps != [] {
      FramesGrowStep(m, s, steps[0]);
      FramesGrow(m, Do(m, s, steps[0]), steps[1..]);
    }
  }

  lemma FramesGrowStep<E, S, P>(m: Mosh<E, S, P>, s: State<E, S, P>, step: Step)
    requires Enabled(s, step)
    ensures s.clock.frames <= Do(m, s, step).clock.frames
  {
  }

  lemma OneMore<S>(frames: seq<Frame<S>>, f: Frame<S>)
    requires !f.prediction
    ensures var plain := Plain(frames + [f]);
            plain == Plain(frames) + [f] && |plain| == |Plain(frames)| + 1 && plain[|plain| - 1] == f
  {
    PlainSnoc(frames, f);
  }

  // ----- the frame that is made -----

  /** A Read for upstream data is about to make its frame. */
  ghost predicate AboutToFrame<E, S, P>(t: State<E, S, P>) {
    Enabled(t, MakeFrame) && !t.updates.reader.prediction
  }

  /** f has just been made, and is about to be delivered. */
  ghost predicate JustFramed<E, S, P>(u: State<E, S, P>, f: Frame<S>) {
    && u.updates.reader.Delivering? && !u.updates.reader.prediction && u.updates.reader.began == f.began
    && f.at == u.clock.now && u.mutex == None && u.screens.snapshots != []
  }

  lemma FrameMade<E, S, P>(m: Mosh<E, S, P>, t: State<E, S, P>) returns (f: Frame<S>)
    requires AboutToFrame(t) && t.screens.snapshots != []
    ensures var u := Do(m, t, MakeFrame);
            JustFramed(u, f) && u.clock == t.clock.(frames := t.clock.frames + [f])
    ensures f.began == t.updates.reader.began && f.at == t.clock.now && !f.prediction
  {
    f := Do(m, t, MakeFrame).clock.frames[|t.clock.frames|];
  }

  lemma BegunByNow<S>(c: Clock<S>, reader: Reader)
    requires Paced(c, reader) && reader.Copying?
    ensures reader.began <= c.now
  {
  }

  // ----- a full interval -----

  /** The next frame for upstream data, if `more` makes one, comes a full interval after the n-th. */
  ghost predicate KeepsInterval<E, S, P>(m: Mosh<E, S, P>, u: State<E, S, P>, more: seq<Step>, n: nat)
    requires Run(m, u, more)
  {
    var plain := Plain(After(m, u, more).clock.frames);
    0 < n < |plain| ==> plain[n].at >= plain[n - 1].at + u.clock.interval
  }

  ghost predicate AlwaysKeepsInterval<E, S, P>(m: Mosh<E, S, P>, u: State<E, S, P>) {
    forall more :: Run(m, u, more) ==> KeepsInterval(m, u, more, |Plain(u.clock.frames)|)
  }

  lemma NextIsSpaced<S>(plain: seq<Frame<S>>, n: nat, interval: int)
    requires Spaced(plain, interval) && 0 < n < |plain|
    requires interval <= 0 || plain[n - 1].began == plain[n - 1].at
    ensures plain[n].at >= plain[n - 1].at + interval
  {
    assert plain[n - 1].at <= plain[n - 1 + 1].began;
  }

  lemma FullInterval<E, S, P>(m: Mosh<E, S, P>, u: State<E, S, P>, more: seq<Step>)
    requires Paced(u.clock, u.updates.reader) && Run(m, u, more)
    requires var plain := Plain(u.clock.frames);
             plain != [] && (u.clock.interval <= 0 || plain[|plain| - 1].began == plain[|plain| - 1].at)
    ensures KeepsInterval(m, u, more, |Plain(u.clock.frames)|)
  {
    hide Do, Enabled, Run, After, Plain, Spaced;
    var t, n := After(m, u, more), |Plain(u.clock.frames)|;
    RunKeepsPaced(m, u, more);
    FramesGrow(m, u, more);
    PlainGrows(u.clock.frames, t.clock.frames);
    if n < |Plain(t.clock.frames)| {
      NextIsSpaced(Plain(t.clock.frames), n, u.clock.interval);
    }
  }

  // ----- a quick next frame -----

  /** Only the puller moves: everything the reader looks at next stays, except for the flag and the screens. */
  ghost predicate Keeps<E, S, P>(t: State<E, S, P>, u: State<E, S, P>) {
    && u.updates.reader == t.updates.reader && u.display == t.display && u.clock == t.clock && u.mutex == t.mutex
    && u.screens.snapshots != []
  }

  function Distance<S>(puller: Puller<S>): nat {
    match puller
    case Pulling => 6
    case Got(_) => 5
    case Checking => 4
    case Loading => 3
    case Storing(_) => 2
    case Putting => 1
    case Dropping => 0
  }

  lemma PullerMoves<E, S, P>(m: Mosh<E, S, P>, t: State<E, S, P>) returns (step: Step)
    requires t.mutex == None && t.screens.snapshots != [] && !t.updates.reader.Parked?
    ensures Enabled(t, step) && Keeps(t, Do(m, t, step))
    ensures if t.puller.Dropping? then Do(m, t, step).updates.dropped
            else Distance(Do(m, t, step).puller) < Distance(t.puller)
  {
    match t.puller
    case Pulling => step := Pull([65], t.screens.snapshots[|t.screens.snapshots| - 1].reach);
    case Got(_) => step := Perform;
    case Checking => step := Check;
    case Loading => step := Load;
    case Storing(_) => step := Store;
    case Putting => step := PullNotify;
    case Dropping => step := PullFlag;
  }

  /** The puller can always get to set the flag, if need be by reading one more byte from upstream. */
  lemma {:induction false} FlagSet<E, S, P>(m: Mosh<E, S, P>, s: State<E, S, P>, steps: seq<Step>, t: State<E, S, P>)
    returns (longer: seq<Step>, u: State<E, S, P>)
    requires Reaches(m, s, steps, t)
    requires t.mutex == None && t.screens.snapshots != [] && !t.updates.reader.Parked?
    ensures Reaches(m, s, longer, u) && Keeps(t, u) && u.updates.dropped
    decreases Distance(t.puller)
  {
    hide Reaches, Do, Enabled, Distance;
    var step := PullerMoves(m, t);
    longer, u := Advance(m, s, steps, t, step);
    if !t.puller.Dropping? {
      longer, u := FlagSet(m, s, longer, u);
    }
  }

  /** The client reads whatever is waiting. */
  lemma Drained<E, S, P>(m: Mosh<E, S, P>, s: State<E, S, P>, steps: seq<Step>, t: State<E, S, P>)
    returns (longer: seq<Step>, u: State<E, S, P>)
    requires Reaches(m, s, steps, t) && t.updates.reader.Away?
    ensures Reaches(m, s, longer, u)
    ensures u.updates == t.updates && u.clock == t.clock && u.mutex == t.mutex && u.screens == t.screens
    ensures u.display.pending == None && u.display.isOpen
  {
    hide Reaches;
    longer, u := steps, t;
    if u.display.pending.Some? && u.display.pending.value != [] {
      longer, u := Advance(m, s, longer, u, Read(|u.display.pending.value|));
    }
    if u.display.pending.Some? {
      longer, u := Advance(m, s, longer, u, Read(1));
    }
    if !u.display.isOpen {
      longer, u := Advance(m, s, longer, u, Read(|m.open|));
    }
  }

  /** When a Read that begins now comes to its gate. */
  function GateTime<S>(c: Clock<S>): int {
    match c.lastUpdated
    case None => c.now
    case Some(last) => Max(c.now, last + c.interval)
  }

  /** The next Read goes to its gate as soon as it may. */
  lemma SoonAtGate<E, S, P>(m: Mosh<E, S, P>, s: State<E, S, P>, steps: seq<Step>, t: State<E, S, P>)
    returns (longer: seq<Step>, u: State<E, S, P>)
    requires Reaches(m, s, steps, t) && t.updates.reader.Away? && t.display.pending == None && t.display.isOpen
    ensures Reaches(m, s, longer, u)
    ensures u.updates == t.updates.(reader := AtGate(1, t.clock.now)) && u.mutex == t.mutex && u.screens == t.screens
    ensures u.clock == t.clock.(now := GateTime(t.clock))
  {
    hide Reaches;
    longer, u := Advance(m, s, steps, t, Read(1));
    if u.updates.reader.Sleeping? {
      longer, u := SleptOut(m, s, longer, u);
    }
  }

  lemma SleptOut<E, S, P>(m: Mosh<E, S, P>, s: State<E, S, P>, steps: seq<Step>, t: State<E, S, P>)
    returns (longer: seq<Step>, u: State<E, S, P>)
    requires Reaches(m, s, steps, t) && t.updates.reader.Sleeping? && t.clock.now <= t.updates.reader.until
    ensures Reaches(m, s, longer, u)
    ensures var r := t.updates.reader;
            u == t.(updates := t.updates.(reader := AtGate(r.size, r.began)), clock := t.clock.(now := r.until))
  {
    hide Reaches;
    longer, u := Advance(m, s, steps, t, Tick(t.updates.reader.until - t.clock.now));
    longer, u := Advance(m, s, longer, u, WakeUp);
  }

  /** Through the gate with the flag set, a frame for upstream data is made. */
  lemma FrameAtOnce<E, S, P>(m: Mosh<E, S, P>, s: State<E, S, P>, steps: seq<Step>, t: State<E, S, P>)
    returns (longer: seq<Step>, u: State<E, S, P>, f: Frame<S>)
    requires Reaches(m, s, steps, t) && t.updates.reader.AtGate? && t.updates.dropped
    requires t.mutex == None && t.screens.snapshots != []
    ensures Reaches(m, s, longer, u) && JustFramed(u, f) && u.clock == t.clock.(frames := t.clock.frames + [f])
    ensures f.began == t.updates.reader.began && !f.prediction
  {
    hide Reaches;
    longer, u := Advance(m, s, steps, t, Gate);
    longer, u := Advance(m, s, longer, u, Clear);
    assert AboutToFrame(u) && u.clock == t.clock;
    f := FrameMade(m, u);
    longer, u := Advance(m, s, longer, u, MakeFrame);
  }

  /** A Read that begins now makes its frame as soon as it may. */
  lemma SoonestFrame<E, S, P>(m: Mosh<E, S, P>, s: State<E, S, P>, steps: seq<Step>, t: State<E, S, P>)
    returns (longer: seq<Step>, u: State<E, S, P>, f: Frame<S>)
    requires Reaches(m, s, steps, t) && t.updates.reader.Away? && t.mutex == None && t.screens.snapshots != []
    ensures Reaches(m, s, longer, u) && JustFramed(u, f)
    ensures u.clock == t.clock.(now := GateTime(t.clock), frames := t.clock.frames + [f])
    ensures f.began == t.clock.now && !f.prediction
  {
    hide Reaches, Do, Enabled, JustFramed;
    longer, u := FlagSet(m, s, steps, t);
    longer, u := Drained(m, s, longer, u);
    longer, u := SoonAtGate(m, s, longer, u);
    longer, u, f := FrameAtOnce(m, s, longer, u);
  }

  /** The frame is delivered, and the next one made as soon as it may. */
  lemma FrameAfter<E, S, P>(m: Mosh<E, S, P>, s: State<E, S, P>, steps: seq<Step>, t: State<E, S, P>, f: Frame<S>)
    returns (longer: seq<Step>, u: State<E, S, P>, g: Frame<S>)
    requires Reaches(m, s, steps, t) && JustFramed(t, f)
    ensures Reaches(m, s, longer, u) && JustFramed(u, g) && u.clock.interval == t.clock.interval
    ensures u.clock.frames == t.clock.frames + [g] && !g.prediction
    ensures g.began == f.at && g.at == Max(f.at, f.began + t.clock.interval)
  {
    longer, u := FrameDelivered(m, s, steps, t, f);
    hide Reaches, Do, Enabled;
    longer, u, g := SoonestFrame(m, s, longer, u);
  }

  lemma FrameDelivered<E, S, P>(m: Mosh<E, S, P>, s: State<E, S, P>, steps: seq<Step>, t: State<E, S, P>, f: Frame<S>)
    returns (longer: seq<Step>, u: State<E, S, P>)
    requires Reaches(m, s, steps, t) && JustFramed(t, f)
    ensures Reaches(m, s, longer, u) && u.updates.reader.Away? && u.mutex == None && u.screens == t.screens
    ensures u.clock == t.clock.(lastUpdated := Some(f.began))
  {
    hide Reaches;
    longer, u := Advance(m, s, steps, t, Deliver);
  }

  /** If the Read of this frame began earlier, the next frame can come less than an interval after it. */
  lemma QuickFrame<E, S, P>(m: Mosh<E, S, P>, u: State<E, S, P>, frames: seq<Frame<S>>, f: Frame<S>)
    returns (more: seq<Step>)
    requires JustFramed(u, f) && u.clock.frames == frames + [f] && !f.prediction
    requires u.clock.interval > 0 && f.began < f.at
    ensures Run(m, u, more) && !KeepsInterval(m, u, more, |Plain(u.clock.frames)|)
  {
    hide Do, Enabled, JustFramed, Plain, Run, After;
    assert Reaches(m, u, [], u) by { Nothing(m, u); }
    var t, g;
    more, t, g := FrameAfter(m, u, [], u, f);
    OneMore(frames, f);
    OneMore(frames + [f], g);
  }

  lemma Nothing<E, S, P>(m: Mosh<E, S, P>, u: State<E, S, P>)
    ensures Reaches(m, u, [], u)
  {
  }

  // ----- exactly when -----

  /**
   * Take any reachable state in which a frame for upstream data is about to be made. However the run goes on, the
   * next such frame comes a full interval later, exactly if there is no interval to keep or the Read of this one
   * began just now: it neither slept nor waited.
   */
  lemma IntervalExactly<E, S, P>(m: Mosh<E, S, P>, interval: int, ids: set<nat>, now: int, steps: seq<Step>)
    requires Run(m, Init(m, interval, ids, now), steps)
    requires AboutToFrame(After(m, Init(m, interval, ids, now), steps))
    ensures var t := After(m, Init(m, interval, ids, now), steps);
            AlwaysKeepsInterval(m, Do(m, t, MakeFrame)) <==> interval <= 0 || t.updates.reader.began == t.clock.now
  {
    hide Run, After, Do, Enabled, AboutToFrame, Paced, AlwaysKeepsInterval, Init;
    ReachedIsPaced(m, interval, ids, now, steps);
    IntervalFrom(m, After(m, Init(m, interval, ids, now), steps));
  }

  lemma ReachedIsPaced<E, S, P>(m: Mosh<E, S, P>, interval: int, ids: set<nat>, now: int, steps: seq<Step>)
    requires Run(m, Init(m, interval, ids, now), steps)
    ensures var t := After(m, Init(m, interval, ids, now), steps);
            Paced(t.clock, t.updates.reader) && t.clock.interval == interval && t.screens.snapshots != []
  {
    var s := Init(m, interval, ids, now);
    hide Run, After, Do, Enabled;
    RunKeepsPaced(m, s, steps);
    RunKeepsSound(m, s, steps);
  }

  lemma IntervalFrom<E, S, P>(m: Mosh<E, S, P>, t: State<E, S, P>)
    requires AboutToFrame(t) && Paced(t.clock, t.updates.reader) && t.screens.snapshots != []
    ensures AlwaysKeepsInterval(m, Do(m, t, MakeFrame))
       <==> t.clock.interval <= 0 || t.updates.reader.began == t.clock.now
  {
    hide Do, Paced, Plain, JustFramed, AlwaysKeepsInterval;
    BegunByNow(t.clock, t.updates.reader);
    StepKeepsPaced(m, t, MakeFrame);
    var f := FrameMade(m, t);
    if t.clock.interval <= 0 || f.began == f.at {
      AlwaysFull(m, Do(m, t, MakeFrame), t.clock.frames, f);
    } else {
      NotAlwaysFull(m, Do(m, t, MakeFrame), t.clock.frames, f);
    }
  }

  lemma AlwaysFull<E, S, P>(m: Mosh<E, S, P>, u: State<E, S, P>, frames: seq<Frame<S>>, f: Frame<S>)
    requires Paced(u.clock, u.updates.reader) && u.clock.frames == frames + [f] && !f.prediction
    requires u.clock.interval <= 0 || f.began == f.at
    ensures AlwaysKeepsInterval(m, u)
  {
    OneMore(frames, f);
    hide Paced, Plain, Run, KeepsInterval;
    forall more | Run(m, u, more) ensures KeepsInterval(m, u, more, |Plain(u.clock.frames)|) {
      FullInterval(m, u, more);
    }
  }

  lemma NotAlwaysFull<E, S, P>(m: Mosh<E, S, P>, u: State<E, S, P>, frames: seq<Frame<S>>, f: Frame<S>)
    requires JustFramed(u, f) && u.clock.frames == frames + [f] && !f.prediction
    requires u.clock.interval > 0 && f.began < f.at
    ensures !AlwaysKeepsInterval(m, u)
  {
    hide Plain, Run, KeepsInterval, JustFramed;
    var more := QuickFrame(m, u, frames, f);
  }

  /** Two frames for upstream data can be made at the same moment, although the interval is ten. */
  lemma TwoIsNeeded<E, S, P>(m: Mosh<E, S, P>) returns (steps: seq<Step>, t: State<E, S, P>)
    ensures Reaches(m, Init(m, 10, {0}, 0), steps, t)
    ensures var plain := Plain(t.clock.frames); |plain| == 3 && plain[1].at == plain[2].at == 10
  {
    var s := Init(m, 10, {0}, 0);
    hide Do, Enabled, JustFramed, Plain, Run, After;
    assert Reaches(m, s, [], s) by { Nothing(m, s); }
    var f, g, h;
    steps, t, f := SoonestFrame(m, s, [], s);
    steps, t, g := FrameAfter(m, s, steps, t, f);
    steps, t, h := FrameAfter(m, s, steps, t, g);
    OneMore([], f);
    OneMore([] + [f], g);
    OneMore([] + [f] + [g], h);
    assert Plain<S>([]) == [] by { PlainOfNone<S>(); }
  }

  lemma PlainOfNone<S>()
    ensures Plain<S>([]) == []
  {
  }
}
