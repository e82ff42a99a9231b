/**
 * The interposer seen from outside. An onlooker sees which steps are taken, with what bytes and when, but none of
 * the interposer's fields; what it notes nevertheless says what is in most of them.
 */
module InterposerTrace {
  import opened Basics
  import opened InterposerProtocol
  import opened InterposerScreens
  import opened InterposerEpochs
  import opened InterposerContract

  /**
   * A frame as the onlooker notes it: when its Read was called, when it was made, whether it was a Write that took
   * the Read out of its select, whether it is the first or follows a 0x0c, and how the epochs stood.
   */
  datatype Sighting = Sighting(began: int, at: int, prediction: bool, repaint: bool, acked: nat, closed: set<nat>)

  /** What is noted of Read: */
  datatype Reading = Reading(
    size: nat,                // the buffer of the latest call,
    began: int,               // when that was,
    inSelect: bool,           // whether it waits in its select,
    prediction: bool,         // whether a Write took it out of there,
    flagged: bool,            // whether somebody gave up on the reader since it last cleared the flag,
    given: Option<int>)       // and when the latest one began that returned with a frame not for a prediction

  /** What is noted of the emulator's input: */
  datatype Feeding = Feeding(
    held: seq<byte>,          // what was read from upstream last,
    reach: nat,               // the newest epoch it reflects,
    events: seq<Event>,       // bytes typed and chunks performed,
    reaches: seq<nat>)        // and after each of those chunks the newest epoch reflected

  /** What is noted of the screen: */
  datatype Showing = Showing(
    begun: bool,              // whether Read has been called,
    repaint: bool,            // whether there is no frame yet, or 0x0c was typed since,
    keys: seq<(byte, nat)>,   // bytes typed, each with the number of frames made before,
    sightings: seq<Sighting>) // and the frames

  datatype Onlooker = Onlooker(now: int, acked: nat, closed: set<nat>,
                               reading: Reading, feeding: Feeding, showing: Showing)

  function Start(now: int): Onlooker {
    Onlooker(now, 0, {}, Reading(0, 0, false, false, false, None), Feeding([], 0, [], [0]),
             Showing(false, true, [], []))
  }

  function Look(o: Onlooker, step: Step): Onlooker {
    match step
    case Write(_, p) =>
      o.(feeding := o.feeding.(events := o.feeding.events + Acts(p)), showing := WithKeys(o.showing, p))
    case WriteNotify(_) => o.(reading := Woken(o.reading, true))
    case CloseNotify(_) => o.(reading := Woken(o.reading, false))
    case PullNotify => o.(reading := Woken(o.reading, false))
    case WriteFlag(_) => o.(reading := o.reading.(flagged := true))
    case CloseFlag(_) => o.(reading := o.reading.(flagged := true))
    case PullFlag => o.(reading := o.reading.(flagged := true))
    case Close(e) => o.(acked := e, closed := o.closed + {e})
    case Pull(chunk, reach) => if chunk == [] then o else o.(feeding := o.feeding.(held := chunk, reach := reach))
    case Perform =>
      o.(feeding := o.feeding.(events := o.feeding.events + [Event.Performed(o.feeding.held)],
                               reaches := o.feeding.reaches + [o.feeding.reach]))
    case Read(size) =>
      o.(reading := o.reading.(size := size, began := o.now), showing := o.showing.(begun := true))
    case Gate => o.(reading := o.reading.(prediction := false))
    case Park => o.(reading := o.reading.(inSelect := true))
    case Clear => o.(reading := o.reading.(flagged := false))
    case MakeFrame => o.(showing := Framed(o.showing, Sight(o)))
    case Deliver =>
      o.(reading := o.reading.(given := if o.reading.prediction then o.reading.given else Some(o.reading.began)))
    case Tick(d) => o.(now := o.now + d)
    case _ => o
  }

  function Woken(r: Reading, prediction: bool): Reading {
    if r.inSelect then r.(inSelect := false, prediction := prediction) else r
  }

  function WithKeys(d: Showing, p: seq<byte>): Showing {
    d.(repaint := d.repaint || 0x0c in p, keys := d.keys + KeysAt(p, |d.sightings|))
  }

  function KeysAt(p: seq<byte>, k: nat): seq<(byte, nat)> {
    seq(|p|, i requires 0 <= i < |p| => (p[i], k))
  }

  function Sight(o: Onlooker): Sighting {
    Sighting(o.reading.began, o.now, o.reading.prediction, o.showing.repaint, o.acked, o.closed)
  }

  function Framed(d: Showing, g: Sighting): Showing {
    d.(repaint := false, sightings := d.sightings + [g])
  }

  function Watch(o: Onlooker, steps: seq<Step>): Onlooker
    decreases steps
  {
    if steps == [] then o else Watch(Look(o, steps[0]), steps[1..])
  }

  // ----- what the notes say -----

  ghost function ShownLast<E, S, P>(m: Mosh<E, S, P>, frames: seq<Frame<S>>): S {
    if frames == [] then m.blank else frames[|frames| - 1].shown
  }

  ghost predicate ReaderAgrees(u: Updates, o: Onlooker) {
    && u.dropped == o.reading.flagged && u.reader.Parked? == o.reading.inSelect
    && (!u.reader.Away? ==> u.reader.size == o.reading.size && u.reader.began == o.reading.began)
    && (u.reader.Clearing? || u.reader.Copying? || u.reader.Delivering? ==> u.reader.prediction == o.reading.prediction)
  }

  ghost predicate Seen<S>(f: Frame<S>, g: Sighting) {
    f.began == g.began && f.at == g.at && f.prediction == g.prediction && f.acked == g.acked && f.closed == g.closed
  }

  ghost predicate ClockAgrees<S>(c: Clock<S>, o: Onlooker) {
    && c.now == o.now && c.lastUpdated == o.reading.given && |c.frames| == |o.showing.sightings|
    && forall k :: 0 <= k < |c.frames| ==> Seen(c.frames[k], o.showing.sightings[k])
  }

  ghost predicate BooksAgree<S, P>(b: Books<S, P>, o: Onlooker) {
    b.lastAcked == o.acked && ClosedEpochs(b.epochs) == o.closed
  }

  ghost predicate ScreensAgree<E, S>(c: Screens<E, S>, puller: Puller<S>, o: Onlooker) {
    && c.events == o.feeding.events && c.arriving == o.feeding.reach && (puller.Got? ==> puller.chunk == o.feeding.held)
    && |c.snapshots| == |o.feeding.reaches|
    && forall k :: 0 <= k < |c.snapshots| ==> c.snapshots[k].reach == o.feeding.reaches[k]
  }

  ghost predicate DisplayAgrees<S>(d: Display<S>, o: Onlooker) {
    d.initialized == !o.showing.repaint && d.isOpen == o.showing.begun && (d.pending.Some? ==> d.isOpen)
  }

  /** A Read past its head has found nothing waiting and the opening bytes sent. */
  ghost predicate HeadDone<E, S, P>(s: State<E, S, P>) {
    !s.updates.reader.Away? ==> s.display.pending == None && s.display.isOpen
  }

  ghost predicate Agrees<E, S, P>(s: State<E, S, P>, o: Onlooker) {
    && ReaderAgrees(s.updates, o) && ClockAgrees(s.clock, o) && BooksAgree(s.books, o)
    && ScreensAgree(s.screens, s.puller, o) && DisplayAgrees(s.display, o)
  }

  /** A step of the reader itself. */
  ghost predicate OfReader(step: Step) {
    step.Read? || step.WakeUp? || step.Gate? || step.Park? || step.Clear? || step.MakeFrame? || step.Deliver?
  }

  /** A step that is meant for the reader. */
  ghost predicate ForReader(step: Step) {
    step.WriteNotify? || step.CloseNotify? || step.PullNotify? || step.WriteFlag? || step.CloseFlag? || step.PullFlag?
  }

  lemma OwnStepSeen<E, S, P>(m: Mosh<E, S, P>, s: State<E, S, P>, step: Step, o: Onlooker)
    requires ReaderAgrees(s.updates, o) && s.clock.now == o.now && Enabled(s, step) && OfReader(step)
    ensures ReaderAgrees(Do(m, s, step).updates, Look(o, step))
  {
    if step.Read? {
      CallSeen(m, s, step.size, o);
      hide Do, Enabled, Look;
    }
  }

  lemma CallSeen<E, S, P>(m: Mosh<E, S, P>, s: State<E, S, P>, size: nat, o: Onlooker)
    requires ReaderAgrees(s.updates, o) && s.clock.now == o.now && Enabled(s, Read(size))
    ensures ReaderAgrees(Do(m, s, Read(size)).updates, Look(o, Read(size)))
  {
  }

  lemma NotifierSeen<E, S, P>(m: Mosh<E, S, P>, s: State<E, S, P>, step: Step, o: Onlooker)
    requires ReaderAgrees(s.updates, o) && Enabled(s, step) && ForReader(step)
    ensures ReaderAgrees(Do(m, s, step).updates, Look(o, step))
  {
  }

  lemma ReaderLeftAlone<E, S, P>(m: Mosh<E, S, P>, s: State<E, S, P>, step: Step, o: Onlooker)
    requires Enabled(s, step) && !OfReader(step) && !ForReader(step)
    ensures Do(m, s, step).updates == s.updates
    ensures Look(o, step).reading == o.reading
  {
  }

  lemma ReaderStepSeen<E, S, P>(m: Mosh<E, S, P>, s: State<E, S, P>, step: Step, o: Onlooker)
    requires ReaderAgrees(s.updates, o) && s.clock.now == o.now && Enabled(s, step)
    ensures ReaderAgrees(Do(m, s, step).updates, Look(o, step))
  {
    hide Do, Enabled, Look;
    if OfReader(step) {
      OwnStepSeen(m, s, step, o);
    } else if ForReader(step) {
      NotifierSeen(m, s, step, o);
    } else {
      ReaderLeftAlone(m, s, step, o);
    }
  }

  lemma FrameSeen<E, S, P>(m: Mosh<E, S, P>, s: State<E, S, P>, o: Onlooker)
    requires ClockAgrees(s.clock, o) && ReaderAgrees(s.updates, o) && BooksAgree(s.books, o) && Enabled(s, MakeFrame)
    ensures ClockAgrees(Do(m, s, MakeFrame).clock, Look(o, MakeFrame))
  {
  }

  lemma ClockStepSeen<E, S, P>(m: Mosh<E, S, P>, s: State<E, S, P>, step: Step, o: Onlooker)
    requires ClockAgrees(s.clock, o) && ReaderAgrees(s.updates, o) && Enabled(s, step) && !step.MakeFrame?
    ensures ClockAgrees(Do(m, s, step).clock, Look(o, step))
  {
    if !step.Tick? && !step.Deliver? {
      ClockLeftAlone(m, s, step, o);
      hide Do, Enabled, Look;
    }
  }

  lemma ClockLeftAlone<E, S, P>(m: Mosh<E, S, P>, s: State<E, S, P>, step: Step, o: Onlooker)
    requires Enabled(s, step) && !step.MakeFrame? && !step.Tick? && !step.Deliver?
    ensures Do(m, s, step).clock == s.clock
    ensures var p := Look(o, step);
            p.now == o.now && p.reading.given == o.reading.given && p.showing.sightings == o.showing.sightings
  {
  }

  lemma BooksStepSeen<E, S, P>(m: Mosh<E, S, P>, s: State<E, S, P>, step: Step, o: Onlooker)
    requires BooksInv(s.books, s.mutex) && BooksAgree(s.books, o) && Enabled(s, step)
    ensures BooksAgree(Do(m, s, step).books, Look(o, step))
  {
    SameClosed(m, s, step);
    hide Do, Enabled, BooksInv, ClosedEpochs;
  }

  lemma PullerStepSeen<E, S, P>(m: Mosh<E, S, P>, s: State<E, S, P>, step: Step, o: Onlooker)
    requires ScreensAgree(s.screens, s.puller, o) && Enabled(s, step) && PullerStep(step)
    ensures ScreensAgree(Do(m, s, step).screens, Do(m, s, step).puller, Look(o, step))
  {
  }

  lemma OthersAtScreens<E, S, P>(m: Mosh<E, S, P>, s: State<E, S, P>, step: Step, o: Onlooker)
    requires Enabled(s, step) && !PullerStep(step)
    ensures var t, p, more := Do(m, s, step), Look(o, step), if step.Write? then Acts(step.p) else [];
            && t.puller == s.puller && t.screens.events == s.screens.events + more
            && t.screens.snapshots == s.screens.snapshots && t.screens.arriving == s.screens.arriving
            && p.feeding == o.feeding.(events := o.feeding.events + more)
  {
  }

  lemma ScreensStepSeen<E, S, P>(m: Mosh<E, S, P>, s: State<E, S, P>, step: Step, o: Onlooker)
    requires ScreensAgree(s.screens, s.puller, o) && Enabled(s, step)
    ensures ScreensAgree(Do(m, s, step).screens, Do(m, s, step).puller, Look(o, step))
  {
    hide Do, Enabled, Look;
    if PullerStep(step) {
      PullerStepSeen(m, s, step, o);
    } else {
      OthersAtScreens(m, s, step, o);
    }
  }

  /** A step at the display. */
  ghost predicate AtDisplay(step: Step) {
    step.Write? || step.Read? || step.MakeFrame? || step.Deliver?
  }

  lemma DisplayLeftAlone<E, S, P>(m: Mosh<E, S, P>, s: State<E, S, P>, step: Step, o: Onlooker)
    requires Enabled(s, step) && !AtDisplay(step)
    ensures Do(m, s, step).display == s.display
    ensures Look(o, step).showing == o.showing
  {
  }

  lemma DisplayStepSeen<E, S, P>(m: Mosh<E, S, P>, s: State<E, S, P>, step: Step, o: Onlooker)
    requires DisplayAgrees(s.display, o) && Enabled(s, step) && HeadDone(s)
    ensures DisplayAgrees(Do(m, s, step).display, Look(o, step))
  {
    if !AtDisplay(step) {
      DisplayLeftAlone(m, s, step, o);
      hide Do, Enabled, Look;
    }
  }

  lemma StepSeen<E, S, P>(m: Mosh<E, S, P>, s: State<E, S, P>, step: Step, o: Onlooker)
    requires Agrees(s, o) && BooksInv(s.books, s.mutex) && Enabled(s, step)
    requires HeadDone(s)
    ensures Agrees(Do(m, s, step), Look(o, step))
  {
    hide Do, Enabled, Look, BooksInv, HeadDone, ReaderAgrees, BooksAgree, ScreensAgree, DisplayAgrees;
    assert s.clock.now == o.now;
    hide ClockAgrees;
    ReaderStepSeen(m, s, step, o);
    if step.MakeFrame? {
      FrameSeen(m, s, o);
    } else {
      ClockStepSeen(m, s, step, o);
    }
    BooksStepSeen(m, s, step, o);
    ScreensStepSeen(m, s, step, o);
    DisplayStepSeen(m, s, step, o);
  }

  lemma StepKeepsHeadDone<E, S, P>(m: Mosh<E, S, P>, s: State<E, S, P>, step: Step)
    requires HeadDone(s) && Enabled(s, step)
    ensures HeadDone(Do(m, s, step))
  {
    if !OfReader(step) {
      ReaderStaysIn(m, s, step);
      hide Do, Enabled;
    }
  }

  lemma ReaderStaysIn<E, S, P>(m: Mosh<E, S, P>, s: State<E, S, P>, step: Step)
    requires Enabled(s, step) && !OfReader(step)
    ensures var t := Do(m, s, step);
            && t.updates.reader.Away? == s.updates.reader.Away?
            && t.display.pending == s.display.pending && t.display.isOpen == s.display.isOpen
  {
  }

  /** What is known of a state along a run that is watched. */
  ghost predicate Followed<E, S, P>(m: Mosh<E, S, P>, s: State<E, S, P>, o: Onlooker) {
    Agrees(s, o) && HeadDone(s) && BooksInv(s.books, s.mutex) && Emulated(m, s.screens)
  }

  lemma StepKeepsFollowed<E, S, P>(m: Mosh<E, S, P>, s: State<E, S, P>, step: Step, o: Onlooker)
    requires Followed(m, s, o) && Enabled(s, step)
    ensures Followed(m, Do(m, s, step), Look(o, step))
  {
    hide Do, Enabled, Look, Agrees, HeadDone, BooksInv, Emulated;
    StepSeen(m, s, step, o);
    StepKeepsHeadDone(m, s, step);
    StepKeepsBooks(m, s, step);
    StepKeepsEmulated(m, s, step);
  }

  lemma {:induction false} RunFollowed<E, S, P>(m: Mosh<E, S, P>, s: State<E, S, P>, o: Onlooker, steps: seq<Step>)
    requires Followed(m, s, o) && Run(m, s, steps)
    ensures Followed(m, After(m, s, steps), Watch(o, steps))
    decreases steps
  {
    hide Followed, Do, Enabled, Look;
    if steps != [] {
      StepKeepsFollowed(m, s, steps[0], o);
      RunFollowed(m, Do(m, s, steps[0]), Look(o, steps[0]), steps[1..]);
    }
  }

  lemma StartFollowed<E, S, P>(m: Mosh<E, S, P>, interval: int, ids: set<nat>, now: int)
    ensures Followed(m, Init(m, interval, ids, now), Start(now))
  {
  }

  /**
   * Over every run, what the onlooker notes is what is there: for each frame when its Read was called, when it was
   * made, the last and all epochs closed before, and that it counts as made for a prediction exactly if a Write took
   * its Read out of its select; what was typed and performed, in order; whether the next frame will be a
   * repaint; and when the last Read began that came back with a frame for upstream data.
   */
  lemma OnlookerIsRight<E, S, P>(m: Mosh<E, S, P>, interval: int, ids: set<nat>, now: int, steps: seq<Step>)
    requires Run(m, Init(m, interval, ids, now), steps)
    ensures Agrees(After(m, Init(m, interval, ids, now), steps), Watch(Start(now), steps))
    ensures HeadDone(After(m, Init(m, interval, ids, now), steps))
  {
    StartFollowed(m, interval, ids, now);
    hide Init, Run, After, Agrees, HeadDone, BooksInv, Emulated;
    RunFollowed(m, Init(m, interval, ids, now), Start(now), steps);
  }

  /** A Read at its gate goes past its select exactly if somebody has given up on it since it last cleared the flag. */
  lemma GatePassesExactly<E, S, P>(m: Mosh<E, S, P>, interval: int, ids: set<nat>, now: int, steps: seq<Step>)
    requires Run(m, Init(m, interval, ids, now), steps)
    requires Enabled(After(m, Init(m, interval, ids, now), steps), Gate)
    ensures var t := After(m, Init(m, interval, ids, now), steps);
            var at, next := t.updates.reader, Do(m, t, Gate).updates.reader;
            next == if Watch(Start(now), steps).reading.flagged then Clearing(at.size, at.began, false)
                    else Selecting(at.size, at.began)
  {
    OnlookerIsRight(m, interval, ids, now, steps);
  }
}
