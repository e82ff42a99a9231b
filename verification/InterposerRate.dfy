/**
 * How often the interposer makes frames for upstream data, over every run with its one reader and a clock that never
 * goes back.
 */
module InterposerRate {
  import opened Basics
  import opened InterposerProtocol
  import opened InterposerTrace

  /** The frames that were not made for a prediction. */
  ghost function Plain<S>(frames: seq<Frame<S>>): seq<Frame<S>> {
    if frames == [] then []
    else
      var last := frames[|frames| - 1];
      Plain(frames[..|frames| - 1]) + if last.prediction then [] else [last]
  }

  lemma PlainSnoc<S>(frames: seq<Frame<S>>, f: Frame<S>)
    ensures Plain(frames + [f]) == if f.prediction then Plain(frames) else Plain(frames) + [f]
  {
    assert (frames + [f])[..|frames|] == frames;
  }

  /** A frame begins after the one before it was made, and is made an interval after that one began. */
  ghost predicate Spaced<S>(plain: seq<Frame<S>>, interval: int) {
    && (forall i :: 0 <= i < |plain| ==> plain[i].began <= plain[i].at)
    && (forall i :: 0 <= i < |plain| - 1 ==>
          plain[i].at <= plain[i + 1].began && plain[i].began + interval <= plain[i + 1].at)
  }

  /** The last frame that counts when the next one is timed. */
  ghost predicate BegunAfter<S>(plain: seq<Frame<S>>, c: Clock<S>, began: int) {
    began <= c.now && (plain != [] ==> plain[|plain| - 1].at <= began)
  }

  ghost predicate Paced<S>(c: Clock<S>, reader: Reader) {
    var plain := Plain(c.frames);
    && Spaced(plain, c.interval)
    && (plain != [] ==> plain[|plain| - 1].at <= c.now)
    && match reader
       case Delivering(_, began, prediction, _) =>
         if prediction then Recorded(plain, c) && BegunAfter(plain, c, began)
         else plain != [] && plain[|plain| - 1].began == began
       case Away => Recorded(plain, c)
       case Sleeping(_, began, until) =>
         && Recorded(plain, c) && BegunAfter(plain, c, began)
         && plain != [] && until == plain[|plain| - 1].began + c.interval
       case _ =>
         && Recorded(plain, c) && BegunAfter(plain, c, reader.began)
         && (plain != [] ==> plain[|plain| - 1].began + c.interval <= c.now)
  }

  /** lastUpdated is when the Read of the last such frame began. */
  ghost predicate Recorded<S>(plain: seq<Frame<S>>, c: Clock<S>) {
    c.lastUpdated == if plain == [] then None else Some(plain[|plain| - 1].began)
  }

  lemma SpacedSnoc<S>(plain: seq<Frame<S>>, interval: int, f: Frame<S>)
    requires Spaced(plain, interval) && f.began <= f.at
    requires plain != [] ==>
               plain[|plain| - 1].at <= f.began && plain[|plain| - 1].began + interval <= f.at
    ensures Spaced(plain + [f], interval)
  {
  }

  /** A frame made now by a Read that came through its gate in time. */
  lemma NewFramePaced<S>(c: Clock<S>, size: nat, prediction: bool, f: Frame<S>, emission: seq<byte>)
    requires Paced(c, Copying(size, f.began, prediction)) && f.at == c.now && f.prediction == prediction
    ensures Paced(c.(frames := c.frames + [f]), Delivering(size, f.began, prediction, emission))
  {
    var plain := Plain(c.frames);
    PlainSnoc(c.frames, f);
    if !prediction {
      SpacedSnoc(plain, c.interval, f);
      assert (plain + [f])[|plain|] == f;
    }
  }

  lemma FrameKeepsPaced<E, S, P>(m: Mosh<E, S, P>, s: State<E, S, P>)
    requires Paced(s.clock, s.updates.reader) && Enabled(s, MakeFrame)
    ensures Paced(Do(m, s, MakeFrame).clock, Do(m, s, MakeFrame).updates.reader)
  {
    var Copying(size, began, prediction) := s.updates.reader;
    var t := Do(m, s, MakeFrame);
    NewFramePaced(s.clock, size, prediction, t.clock.frames[|s.clock.frames|], t.updates.reader.emission);
  }

  ghost predicate ReaderStep(step: Step) {
    step.Read? || step.WakeUp? || step.Gate? || step.Park? || step.Clear? || step.Deliver?
  }

  lemma CoalescePaced<S>(c: Clock<S>, size: nat)
    requires Paced(c, Away)
    ensures Paced(c, Coalesce(c, size))
  {
  }

  lemma DeliverPaced<S>(c: Clock<S>, size: nat, began: int, prediction: bool, emission: seq<byte>)
    requires Paced(c, Delivering(size, began, prediction, emission))
    ensures Paced(c.(lastUpdated := if prediction then c.lastUpdated else Some(began)), Away)
  {
  }

  ghost predicate PastSleep(reader: Reader) {
    reader.AtGate? || reader.Selecting? || reader.Parked? || reader.Clearing? || reader.Copying?
  }

  lemma MovesOnPaced<S>(c: Clock<S>, reader: Reader, next: Reader)
    requires Paced(c, reader) && PastSleep(next)
    requires PastSleep(reader) || (reader.Sleeping? && c.now >= reader.until)
    requires next.began == reader.began
    ensures Paced(c, next)
  {
  }

  lemma ReaderKeepsPaced<E, S, P>(m: Mosh<E, S, P>, s: State<E, S, P>, step: Step)
    requires Paced(s.clock, s.updates.reader) && Enabled(s, step) && ReaderStep(step)
    ensures Paced(Do(m, s, step).clock, Do(m, s, step).updates.reader)
  {
    if step.Read? {
      CoalescePaced(s.clock, step.size);
    } else if step.Deliver? {
      var Delivering(size, began, prediction, emission) := s.updates.reader;
      DeliverPaced(s.clock, size, began, prediction, emission);
    } else {
      MovesOnPaced(s.clock, s.updates.reader, Do(m, s, step).updates.reader);
    }
  }

  /** The others leave the reader alone, except that a notifier may take it out of its select; only the clock moves. */
  lemma OthersAtReader<E, S, P>(m: Mosh<E, S, P>, s: State<E, S, P>, step: Step)
    requires Enabled(s, step) && !ReaderStep(step) && !step.MakeFrame?
    ensures var t := Do(m, s, step);
            && t.clock.now >= s.clock.now && t.clock == s.clock.(now := t.clock.now)
            && (|| t.updates.reader == s.updates.reader
                || (s.updates.reader.Parked? && t.updates.reader.Clearing?
                    && t.updates.reader.began == s.updates.reader.began))
  {
  }

  lemma LaterStillPaced<S>(c: Clock<S>, now: int, reader: Reader, later: Reader)
    requires Paced(c, reader) && now >= c.now
    requires later == reader || (reader.Parked? && later.Clearing? && later.began == reader.began)
    ensures Paced(c.(now := now), later)
  {
  }

  lemma StepKeepsPaced<E, S, P>(m: Mosh<E, S, P>, s: State<E, S, P>, step: Step)
    requires Paced(s.clock, s.updates.reader) && Enabled(s, step)
    ensures Paced(Do(m, s, step).clock, Do(m, s, step).updates.reader)
    ensures Do(m, s, step).clock.interval == s.clock.interval
  {
    if step.MakeFrame? {
      FrameKeepsPaced(m, s);
    } else if ReaderStep(step) {
      ReaderKeepsPaced(m, s, step);
    } else {
      OthersAtReader(m, s, step);
      LaterStillPaced(s.clock, Do(m, s, step).clock.now, s.updates.reader, Do(m, s, step).updates.reader);
    }
  }

  lemma {:induction false} RunKeepsPaced<E, S, P>(m: Mosh<E, S, P>, s: State<E, S, P>, steps: seq<Step>)
    requires Paced(s.clock, s.updates.reader) && Run(m, s, steps)
    ensures Paced(After(m, s, steps).clock, After(m, s, steps).updates.reader)
    ensures After(m, s, steps).clock.interval == s.clock.interval
    decreases steps
  {
    hide Paced, Do, Enabled;
    if steps != [] {
      StepKeepsPaced(m, s, steps[0]);
      RunKeepsPaced(m, Do(m, s, steps[0]), steps[1..]);
    }
  }

  lemma {:induction false} SpacedOut<S>(plain: seq<Frame<S>>, interval: int, k: nat, n: nat)
    requires Spaced(plain, interval) && k + 2 * n < |plain|
    ensures plain[k + 2 * n].at >= plain[k].at + n * interval
    decreases n
  {
    if n > 0 {
      SpacedOut(plain, interval, k, n - 1);
      var i := k + 2 * (n - 1);
      assert plain[i].at <= plain[i + 1].began && plain[i + 1].began + interval <= plain[i + 2].at;
      assert n * interval == (n - 1) * interval + interval;
    }
  }

  // ----- as an onlooker sees it -----

  /** The frames seen whose Read no Write took out of its select. */
  ghost function ForUpstream(sightings: seq<Sighting>): seq<Sighting> {
    if sightings == [] then []
    else
      var last := sightings[|sightings| - 1];
      ForUpstream(sightings[..|sightings| - 1]) + if last.prediction then [] else [last]
  }

  lemma {:induction false} PlainAsSeen<S>(frames: seq<Frame<S>>, sightings: seq<Sighting>)
    requires |frames| == |sightings| && forall k :: 0 <= k < |frames| ==> Seen(frames[k], sightings[k])
    ensures |Plain(frames)| == |ForUpstream(sightings)|
    ensures forall i :: 0 <= i < |Plain(frames)| ==> Seen(Plain(frames)[i], ForUpstream(sightings)[i])
    decreases |frames|
  {
    if frames != [] {
      var n := |frames| - 1;
      PlainAsSeen(frames[..n], sightings[..n]);
      assert Seen(frames[n], sightings[n]);
    }
  }

  lemma SightingsSpaced<E, S, P>(m: Mosh<E, S, P>, interval: int, ids: set<nat>, now: int, steps: seq<Step>)
    requires Run(m, Init(m, interval, ids, now), steps)
    ensures var frames := After(m, Init(m, interval, ids, now), steps).clock.frames;
            var seen := ForUpstream(Watch(Start(now), steps).showing.sightings);
            && Spaced(Plain(frames), interval) && |Plain(frames)| == |seen|
            && forall i :: 0 <= i < |seen| ==> Seen(Plain(frames)[i], seen[i])
  {
    RunKeepsPaced(m, Init(m, interval, ids, now), steps);
    OnlookerIsRight(m, interval, ids, now, steps);
    hide Run, After, Init, Watch, BooksAgree, ScreensAgree, DisplayAgrees, ReaderAgrees;
    PlainAsSeen(After(m, Init(m, interval, ids, now), steps).clock.frames, Watch(Start(now), steps).showing.sightings);
  }

  /**
   * Every second frame whose Read no Write took out of its select is at least one coalesce interval later: 2n such
   * frames take n intervals.
   */
  lemma FrameRate<E, S, P>(m: Mosh<E, S, P>, interval: int, ids: set<nat>, now: int, steps: seq<Step>, k: nat, n: nat)
    requires Run(m, Init(m, interval, ids, now), steps)
    requires k + 2 * n < |ForUpstream(Watch(Start(now), steps).showing.sightings)|
    ensures var seen := ForUpstream(Watch(Start(now), steps).showing.sightings);
            seen[k + 2 * n].at >= seen[k].at + n * interval
  {
    hide Run, After, Init, Watch, Plain, ForUpstream, Spaced;
    SightingsSpaced(m, interval, ids, now, steps);
    SpacedOut(Plain(After(m, Init(m, interval, ids, now), steps).clock.frames), interval, k, n);
  }

  /**
   * The time until the next such frame is the interval, less the time its predecessor took from the call of its Read
   * to being made.
   */
  lemma NextFrame<E, S, P>(m: Mosh<E, S, P>, interval: int, ids: set<nat>, now: int, steps: seq<Step>, i: nat)
    requires Run(m, Init(m, interval, ids, now), steps)
    requires i + 1 < |ForUpstream(Watch(Start(now), steps).showing.sightings)|
    ensures var seen := ForUpstream(Watch(Start(now), steps).showing.sightings);
            seen[i + 1].at - seen[i].at >= interval - (seen[i].at - seen[i].began)
  {
    hide Run, After, Init, Watch, Plain, ForUpstream;
    SightingsSpaced(m, interval, ids, now, steps);
    var plain := Plain(After(m, Init(m, interval, ids, now), steps).clock.frames);
    assert plain[i].began + interval <= plain[i + 1].at;
  }
}
