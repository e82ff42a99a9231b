/** Every byte the client is given: which they are, and how many each Read gives. */
module InterposerStream {
  import opened Basics
  import opened InterposerProtocol
  import opened InterposerEpochs
  import opened InterposerScreens
  import opened InterposerContract
  import opened InterposerClient
  import opened InterposerTrace

  /** For each frame the difference from the one before; for a repaint, as if nothing were known of the screen. */
  ghost function Emissions<E, S, P>(m: Mosh<E, S, P>, frames: seq<Frame<S>>, sightings: seq<Sighting>): seq<byte>
    requires |frames| == |sightings|
  {
    if frames == [] then []
    else
      var n := |frames| - 1;
      Emissions(m, frames[..n], sightings[..n])
      + m.newFrame(!sightings[n].repaint, ShownLast(m, frames[..n]), frames[n].shown)
  }

  lemma EmissionsSnoc<E, S, P>(m: Mosh<E, S, P>, frames: seq<Frame<S>>, sightings: seq<Sighting>,
                               f: Frame<S>, g: Sighting)
    requires |frames| == |sightings|
    ensures Emissions(m, frames + [f], sightings + [g])
         == Emissions(m, frames, sightings) + m.newFrame(!g.repaint, ShownLast(m, frames), f.shown)
  {
    assert (frames + [f])[..|frames|] == frames && (sightings + [g])[..|sightings|] == sightings;
  }

  /** All that is made for the client: the opening bytes once Read has been called, then frame by frame. */
  ghost function Made<E, S, P>(m: Mosh<E, S, P>, frames: seq<Frame<S>>, o: Onlooker): seq<byte>
    requires |frames| == |o.showing.sightings|
  {
    (if o.showing.begun then m.open else []) + Emissions(m, frames, o.showing.sightings)
  }

  ghost predicate Streams<E, S, P>(m: Mosh<E, S, P>, s: State<E, S, P>, o: Onlooker) {
    && |s.clock.frames| == |o.showing.sightings|
    && Stream(s.display, s.updates.reader) == Made(m, s.clock.frames, o)
    && s.display.localState == ShownLast(m, s.clock.frames)
    && (!o.showing.begun ==> s.clock.frames == [])
  }

  lemma OpeningStreams<S>(d: Display<S>, size: nat, open: seq<byte>)
    requires d.pending == None
    ensures Stream(Give(d.(isOpen := true), size, open), Away) == Stream(d, Away) + open
  {
    DeliverKeepsStream(d.(isOpen := true), size, 0, false, open);
    assert Stream(d.(isOpen := true), Delivering(size, 0, false, open)) == Stream(d, Away) + open;
  }

  lemma ReadStreams<E, S, P>(m: Mosh<E, S, P>, s: State<E, S, P>, size: nat, o: Onlooker)
    requires Streams(m, s, o) && Agrees(s, o) && Enabled(s, Read(size))
    ensures Streams(m, Do(m, s, Read(size)), Look(o, Read(size)))
  {
    var t, p := Do(m, s, Read(size)), Look(o, Read(size));
    if s.display.pending.Some? {
      DrainKeepsStream(s.display, size);
    } else if !s.display.isOpen {
      OpeningStreams(s.display, size, m.open);
      assert Made(m, s.clock.frames, o) + m.open == Made(m, t.clock.frames, p);
    }
  }

  lemma MadeExtends<E, S, P>(m: Mosh<E, S, P>, frames: seq<Frame<S>>, o: Onlooker, f: Frame<S>)
    requires |frames| == |o.showing.sightings|
    ensures Made(m, frames + [f], Look(o, MakeFrame))
         == Made(m, frames, o) + m.newFrame(!o.showing.repaint, ShownLast(m, frames), f.shown)
  {
    EmissionsSnoc(m, frames, o.showing.sightings, f, Sight(o));
    hide Emissions;
  }

  lemma FrameAdded<E, S, P>(m: Mosh<E, S, P>, s: State<E, S, P>) returns (f: Frame<S>)
    requires Enabled(s, MakeFrame)
    ensures Do(m, s, MakeFrame).clock.frames == s.clock.frames + [f]
    ensures f.shown == Do(m, s, MakeFrame).display.localState
  {
    f := Do(m, s, MakeFrame).clock.frames[|s.clock.frames|];
  }

  lemma FrameStreams<E, S, P>(m: Mosh<E, S, P>, s: State<E, S, P>, o: Onlooker)
    requires Streams(m, s, o) && Agrees(s, o) && HeadDone(s) && Enabled(s, MakeFrame)
    ensures Streams(m, Do(m, s, MakeFrame), Look(o, MakeFrame))
  {
    assert s.display.initialized == !o.showing.repaint && s.display.pending == None && o.showing.begun;
    assert |Look(o, MakeFrame).showing.sightings| == |o.showing.sightings| + 1 && Look(o, MakeFrame).showing.begun;
    hide Do, Enabled, Look, Agrees, HeadDone, Made, Stream;
    FrameExtendsStream(m, s);
    var f := FrameAdded(m, s);
    MadeExtends(m, s.clock.frames, o, f);
  }

  lemma DeliverStreams<E, S, P>(m: Mosh<E, S, P>, s: State<E, S, P>, o: Onlooker)
    requires Streams(m, s, o) && HeadDone(s) && Enabled(s, Deliver)
    ensures Streams(m, Do(m, s, Deliver), Look(o, Deliver))
  {
    var Delivering(size, began, prediction, emission) := s.updates.reader;
    DeliverKeepsStream(s.display, size, began, prediction, emission);
  }

  lemma OthersStream<E, S, P>(m: Mosh<E, S, P>, s: State<E, S, P>, step: Step, o: Onlooker)
    requires Streams(m, s, o) && Enabled(s, step) && !step.Read? && !step.MakeFrame? && !step.Deliver?
    ensures Streams(m, Do(m, s, step), Look(o, step))
  {
    hide Stream, Emissions, ShownLast, Do, Enabled, Look;
    NotesKept(step, o);
    OthersKeepStream(m, s, step);
  }

  lemma NotesKept(step: Step, o: Onlooker)
    requires !step.Read? && !step.MakeFrame?
    ensures var p := Look(o, step).showing; p.sightings == o.showing.sightings && p.begun == o.showing.begun
  {
  }

  lemma OthersKeepStream<E, S, P>(m: Mosh<E, S, P>, s: State<E, S, P>, step: Step)
    requires Enabled(s, step) && !step.Read? && !step.MakeFrame? && !step.Deliver?
    ensures var t := Do(m, s, step);
            && Stream(t.display, t.updates.reader) == Stream(s.display, s.updates.reader)
            && t.display.localState == s.display.localState && t.clock.frames == s.clock.frames
  {
    hide Do, Enabled;
    SameFrames(m, s, step);
    OthersKeepDisplay(m, s, step);
    OthersKeepComing(m, s, step);
  }

  lemma OthersKeepDisplay<E, S, P>(m: Mosh<E, S, P>, s: State<E, S, P>, step: Step)
    requires Enabled(s, step) && !step.Read? && !step.MakeFrame? && !step.Deliver?
    ensures Do(m, s, step).display == s.display.(initialized := Do(m, s, step).display.initialized)
  {
  }

  lemma OthersKeepComing<E, S, P>(m: Mosh<E, S, P>, s: State<E, S, P>, step: Step)
    requires Enabled(s, step) && !step.Read? && !step.MakeFrame? && !step.Deliver?
    ensures Coming(Do(m, s, step).updates.reader) == Coming(s.updates.reader)
  {
  }

  lemma StepStreams<E, S, P>(m: Mosh<E, S, P>, s: State<E, S, P>, step: Step, o: Onlooker)
    requires Streams(m, s, o) && Followed(m, s, o) && Enabled(s, step)
    ensures Streams(m, Do(m, s, step), Look(o, step))
  {
    hide Streams, Agrees, HeadDone, BooksInv, Emulated, Do, Enabled, Look;
    match step
    case Read(size) => ReadStreams(m, s, size, o);
    case MakeFrame => FrameStreams(m, s, o);
    case Deliver => DeliverStreams(m, s, o);
    case _ => OthersStream(m, s, step, o);
  }

  lemma {:induction false} RunStreams<E, S, P>(m: Mosh<E, S, P>, s: State<E, S, P>, o: Onlooker, steps: seq<Step>)
    requires Streams(m, s, o) && Followed(m, s, o) && Run(m, s, steps)
    ensures Streams(m, After(m, s, steps), Watch(o, steps))
    decreases steps
  {
    hide Streams, Followed, Do, Enabled, Look;
    if steps != [] {
      StepStreams(m, s, steps[0], o);
      StepKeepsFollowed(m, s, steps[0], o);
      RunStreams(m, Do(m, s, steps[0]), Look(o, steps[0]), steps[1..]);
    }
  }

  lemma ReachedStreams<E, S, P>(m: Mosh<E, S, P>, interval: int, ids: set<nat>, now: int, steps: seq<Step>)
    requires Run(m, Init(m, interval, ids, now), steps)
    ensures var t, o := After(m, Init(m, interval, ids, now), steps), Watch(Start(now), steps);
            Streams(m, t, o) && Followed(m, t, o)
  {
    var s := Init(m, interval, ids, now);
    assert Streams(m, s, Start(now));
    StartFollowed(m, interval, ids, now);
    hide Run, After, Init, Watch, Followed, Streams;
    RunStreams(m, s, Start(now), steps);
    RunFollowed(m, s, Start(now), steps);
  }

  /**
   * In every run, what the client has read, what waits for it and what a Read has in hand is, byte for byte: the
   * opening bytes once Read has been called, then for each frame the difference from the frame before, or the
   * whole of it if it is the first or 0x0c was typed since the one before.
   */
  lemma StreamIsMade<E, S, P>(m: Mosh<E, S, P>, interval: int, ids: set<nat>, now: int, steps: seq<Step>)
    requires Run(m, Init(m, interval, ids, now), steps)
    ensures var t, o := After(m, Init(m, interval, ids, now), steps), Watch(Start(now), steps);
            && |t.clock.frames| == |o.showing.sightings|
            && Stream(t.display, t.updates.reader) == Made(m, t.clock.frames, o)
  {
    ReachedStreams(m, interval, ids, now, steps);
    hide Run, After, Init, Watch, Followed, Made;
  }

  // ----- what each Read gives -----

  /** The step returns from a Read with a buffer of this size. */
  ghost predicate Returns<E, S, P>(s: State<E, S, P>, step: Step, size: nat) {
    || (step == Read(size) && (s.display.pending.Some? || !s.display.isOpen))
    || (step.Deliver? && s.updates.reader.Delivering? && size == s.updates.reader.size)
  }

  /**
   * Every Read gives the next bytes of all that has been made for the client, as many as fit into its buffer; in
   * particular nothing is ever left behind for a buffer with room.
   */
  lemma ReadGivesNext<E, S, P>(m: Mosh<E, S, P>, interval: int, ids: set<nat>, now: int, steps: seq<Step>,
                               step: Step, size: nat)
    requires Run(m, Init(m, interval, ids, now), steps)
    requires var s := After(m, Init(m, interval, ids, now), steps); Enabled(s, step) && Returns(s, step, size)
    ensures var s := After(m, Init(m, interval, ids, now), steps);
            var t, o := Do(m, s, step), Look(Watch(Start(now), steps), step);
            && |t.clock.frames| == |o.showing.sightings| && t.updates.reader.Away?
            && var all := Made(m, t.clock.frames, o);
               t.display.output == all[..Min(|s.display.output| + size, |all|)]
  {
    hide *;
    ReachedStreams(m, interval, ids, now, steps);
    GivesNext(m, After(m, Init(m, interval, ids, now), steps), Watch(Start(now), steps), step, size);
  }

  lemma GivesNext<E, S, P>(m: Mosh<E, S, P>, s: State<E, S, P>, o: Onlooker, step: Step, size: nat)
    requires Streams(m, s, o) && Followed(m, s, o) && Enabled(s, step) && Returns(s, step, size)
    ensures var t, p := Do(m, s, step), Look(o, step);
            && |t.clock.frames| == |p.showing.sightings| && t.updates.reader.Away?
            && var all := Made(m, t.clock.frames, p);
               t.display.output == all[..Min(|s.display.output| + size, |all|)]
  {
    hide Do, Enabled, Look, Returns, Made, Stream, Agrees, Emulated, BooksInv, HeadDone;
    StepStreams(m, s, step, o);
    NextOf(m, s, step, size);
  }

  lemma NextOf<E, S, P>(m: Mosh<E, S, P>, s: State<E, S, P>, step: Step, size: nat)
    requires HeadDone(s) && Enabled(s, step) && Returns(s, step, size)
    ensures var t := Do(m, s, step);
            var all := Stream(t.display, Away);
            t.updates.reader.Away? && t.display.output == all[..Min(|s.display.output| + size, |all|)]
  {
    var bytes := Given(m, s, step, size);
    hide Do, Enabled, Returns, HeadDone;
    NextBytes(s.display.output, bytes, size, InterposerClient.Waiting(Do(m, s, step).display));
  }

  lemma DrainGives<S>(d: Display<S>, size: nat)
    requires d.pending.Some?
    ensures var t, bytes := Drain(d, size), d.pending.value;
            var n := Min(size, |bytes|);
            t.output == d.output + bytes[..n] && InterposerClient.Waiting(t) == bytes[n..]
  {
  }

  lemma GiveGives<S>(d: Display<S>, size: nat, bytes: seq<byte>)
    requires d.pending == None
    ensures var t, n := Give(d, size, bytes), Min(size, |bytes|);
            t.output == d.output + bytes[..n] && InterposerClient.Waiting(t) == bytes[n..]
  {
  }

  /** What the step has to give. */
  lemma Given<E, S, P>(m: Mosh<E, S, P>, s: State<E, S, P>, step: Step, size: nat) returns (bytes: seq<byte>)
    requires HeadDone(s) && Enabled(s, step) && Returns(s, step, size)
    ensures var t, n := Do(m, s, step), Min(size, |bytes|);
            && t.updates.reader.Away? && t.display.output == s.display.output + bytes[..n]
            && InterposerClient.Waiting(t.display) == bytes[n..]
  {
    hide Drain, Give;
    if s.display.pending.Some? {
      bytes := s.display.pending.value;
      DrainGives(s.display, size);
    } else if s.display.isOpen {
      bytes := s.updates.reader.emission;
      GiveGives(s.display, size, bytes);
    } else {
      bytes := m.open;
      GiveGives(s.display.(isOpen := true), size, bytes);
    }
  }

  lemma NextBytes(before: seq<byte>, bytes: seq<byte>, size: nat, left: seq<byte>)
    requires left == bytes[Min(size, |bytes|)..]
    ensures var all := before + bytes[..Min(size, |bytes|)] + left + [];
            before + bytes[..Min(size, |bytes|)] == all[..Min(|before| + size, |all|)]
  {
  }

  function Reads(sizes: seq<nat>): seq<Step> {
    if sizes == [] then [] else [Read(sizes[0])] + Reads(sizes[1..])
  }

  /** Reads with buffers of any sizes but zero come to the end of what waits, and give all of it. */
  lemma {:induction false} WaitingIsRead<E, S, P>(m: Mosh<E, S, P>, s: State<E, S, P>, bytes: seq<byte>,
                                                  sizes: seq<nat>) returns (k: nat)
    requires s.updates.reader.Away? && s.display.pending == Some(bytes)
    requires |sizes| > |bytes| && 0 !in sizes
    ensures k <= |sizes| && Run(m, s, Reads(sizes[..k]))
    ensures After(m, s, Reads(sizes[..k]))
         == s.(display := s.display.(output := s.display.output + bytes, pending := None))
    decreases |sizes|
  {
    var t := Do(m, s, Read(sizes[0]));
    if bytes == [] {
      k := 1;
      assert s.display.output + bytes == s.display.output && Reads([]) == [];
    } else {
      var n := Min(sizes[0], |bytes|);
      Rejoin(s.display.output, bytes, n);
      assert sizes[0] in sizes;
      var l := WaitingIsRead(m, t, bytes[n..], sizes[1..]);
      k := l + 1;
      assert sizes[..k][1..] == sizes[1..][..l];
    }
  }
}
