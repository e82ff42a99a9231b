/** When the reader of the interposer may sleep on an update that nobody will hand to it. */
module InterposerSleep {
  import opened Basics
  import opened InterposerProtocol
  import opened InterposerEpochs
  import opened InterposerUpdates

  // ----- a reader asleep on an update -----

  /** A notifier whose put was rejected and that has yet to set the flag. */
  ghost predicate GivenUp<E, S, P>(s: State<E, S, P>) {
    || (exists w :: w in s.writers && s.writers[w].Flagging?)
    || (exists e :: e in s.books.epochs && s.books.epochs[e].Marking?)
    || s.puller.Dropping?
  }

  /** Nobody has given up on a reader that is in its select. */
  ghost predicate ParkedSafely<E, S, P>(s: State<E, S, P>) {
    s.updates.reader.Parked? ==> !s.updates.dropped && !GivenUp(s)
  }

  ghost predicate AlwaysSafe<E, S, P>(m: Mosh<E, S, P>, s: State<E, S, P>, steps: seq<Step>)
    requires Run(m, s, steps)
    decreases steps
  {
    ParkedSafely(s) && (steps == [] || AlwaysSafe(m, Do(m, s, steps[0]), steps[1..]))
  }

  /** The reader enters its select only while the flag is still down and nobody is about to set it. */
  ghost predicate ParksInTime<E, S, P>(m: Mosh<E, S, P>, s: State<E, S, P>, steps: seq<Step>)
    requires Run(m, s, steps)
    decreases steps
  {
    steps == [] || ((steps[0].Park? ==> !s.updates.dropped && !GivenUp(s))
                    && ParksInTime(m, Do(m, s, steps[0]), steps[1..]))
  }

  lemma ParkSafe<E, S, P>(m: Mosh<E, S, P>, s: State<E, S, P>)
    requires Enabled(s, Park)
    ensures ParkedSafely(Do(m, s, Park)) <==> !s.updates.dropped && !GivenUp(s)
  {
    var t := Do(m, s, Park);
    assert t.writers == s.writers && t.books == s.books && t.puller == s.puller;
  }

  lemma OthersKeepSafe<E, S, P>(m: Mosh<E, S, P>, s: State<E, S, P>, step: Step)
    requires ParkedSafely(s) && Enabled(s, step) && !step.Park?
    ensures ParkedSafely(Do(m, s, step))
  {
    var t := Do(m, s, step);
    if t.updates.reader.Parked? {
      assert s.updates.reader.Parked?;
      forall w | w in t.writers ensures !t.writers[w].Flagging? {
        assert w in s.writers;
      }
    }
  }

  lemma {:induction false} SafeExactlyFrom<E, S, P>(m: Mosh<E, S, P>, s: State<E, S, P>, steps: seq<Step>)
    requires ParkedSafely(s) && Run(m, s, steps)
    ensures AlwaysSafe(m, s, steps) <==> ParksInTime(m, s, steps)
    decreases steps
  {
    hide ParkedSafely, Do;
    if steps != [] {
      if steps[0].Park? {
        ParkSafe(m, s);
      } else {
        OthersKeepSafe(m, s, steps[0]);
      }
      if ParkedSafely(Do(m, s, steps[0])) {
        SafeExactlyFrom(m, Do(m, s, steps[0]), steps[1..]);
      }
    }
  }

  /**
   * No reader is ever in its select with the flag set, or a notifier that gave up on it, exactly if none enters
   * its select after that has happened.
   */
  lemma SafeExactly<E, S, P>(m: Mosh<E, S, P>, interval: int, ids: set<nat>, now: int, steps: seq<Step>)
    requires Run(m, Init(m, interval, ids, now), steps)
    ensures AlwaysSafe(m, Init(m, interval, ids, now), steps) <==> ParksInTime(m, Init(m, interval, ids, now), steps)
  {
    SafeExactlyFrom(m, Init(m, interval, ids, now), steps);
  }

  // ----- a reader nobody will wake -----

  /** Some notifier has yet to try its put. */
  ghost predicate PutComing<E, S, P>(s: State<E, S, P>) {
    || (exists w :: w in s.writers && s.writers[w].Notifying?)
    || (exists e :: e in s.books.epochs && s.books.epochs[e].Announcing?)
    || s.puller.Putting?
  }

  /** A reader in its select with a change to show has a put coming, which will wake it. */
  ghost predicate Attended<E, S, P>(s: State<E, S, P>) {
    s.updates.reader.Parked? && Changed(s) ==> PutComing(s)
  }

  ghost predicate AlwaysAttended<E, S, P>(m: Mosh<E, S, P>, s: State<E, S, P>, steps: seq<Step>)
    requires Run(m, s, steps)
    decreases steps
  {
    Attended(s) && (steps == [] || AlwaysAttended(m, Do(m, s, steps[0]), steps[1..]))
  }

  /** The reader enters its select only with nothing to show, or a put still coming. */
  ghost predicate ParksAttended<E, S, P>(m: Mosh<E, S, P>, s: State<E, S, P>, steps: seq<Step>)
    requires Run(m, s, steps)
    decreases steps
  {
    steps == [] || ((steps[0].Park? ==> !Changed(s) || PutComing(s))
                    && ParksAttended(m, Do(m, s, steps[0]), steps[1..]))
  }

  lemma ParkAttended<E, S, P>(m: Mosh<E, S, P>, s: State<E, S, P>)
    requires Enabled(s, Park)
    ensures Attended(Do(m, s, Park)) <==> !Changed(s) || PutComing(s)
  {
    var t := Do(m, s, Park);
    OthersShowNothing(m, s, Park);
    assert t.writers == s.writers && t.books == s.books && t.puller == s.puller;
  }

  ghost predicate PutStep(step: Step) {
    step.WriteNotify? || step.CloseNotify? || step.PullNotify?
  }

  lemma PutUnparks<E, S, P>(m: Mosh<E, S, P>, s: State<E, S, P>, step: Step)
    requires Enabled(s, step) && PutStep(step)
    ensures !Do(m, s, step).updates.reader.Parked?
  {
  }

  lemma ChangeBringsPut<E, S, P>(m: Mosh<E, S, P>, s: State<E, S, P>, step: Step)
    requires Enabled(s, step) && ChangeStep(step)
    ensures PutComing(Do(m, s, step))
  {
    var t := Do(m, s, step);
    match step
    case Write(w, p) => assert t.writers[w].Notifying?;
    case Close(e) => assert t.books.epochs[e].Announcing?;
    case Store =>
  }

  lemma PutStaysComing<E, S, P>(m: Mosh<E, S, P>, s: State<E, S, P>, step: Step)
    requires BooksInv(s.books, s.mutex) && Enabled(s, step) && !PutStep(step) && PutComing(s)
    ensures PutComing(Do(m, s, step))
  {
    var t := Do(m, s, step);
    if w :| w in s.writers && s.writers[w].Notifying? {
      assert t.writers[w].Notifying?;
    } else if e :| e in s.books.epochs && s.books.epochs[e].Announcing? {
      EpochStaysAnnouncing(m, s, step, e);
      assert t.books.epochs[e].Announcing?;
    }
  }

  lemma EpochStaysAnnouncing<E, S, P>(m: Mosh<E, S, P>, s: State<E, S, P>, step: Step, e: nat)
    requires Enabled(s, step) && !PutStep(step) && e in s.books.epochs && s.books.epochs[e].Announcing?
    requires s.books.epoch + 1 !in s.books.epochs
    ensures e in Do(m, s, step).books.epochs && Do(m, s, step).books.epochs[e].Announcing?
  {
    if !BookStep(step) {
      BooksUntouched(m, s, step);
      hide Do, Enabled;
    }
  }

  /** Whoever is in its select was there before, except when it has just parked. */
  lemma ParkedBefore<E, S, P>(m: Mosh<E, S, P>, s: State<E, S, P>, step: Step)
    requires Enabled(s, step) && !step.Park? && Do(m, s, step).updates.reader.Parked?
    ensures s.updates.reader.Parked? && !step.MakeFrame?
  {
  }

  lemma OthersKeepAttended<E, S, P>(m: Mosh<E, S, P>, s: State<E, S, P>, step: Step)
    requires BooksInv(s.books, s.mutex) && Attended(s) && Enabled(s, step) && !step.Park?
    ensures Attended(Do(m, s, step))
  {
    if Do(m, s, step).updates.reader.Parked? {
      ParkedBefore(m, s, step);
      if PutStep(step) {
        PutUnparks(m, s, step);
      } else if ChangeStep(step) {
        ChangeBringsPut(m, s, step);
      } else {
        OthersShowNothing(m, s, step);
        if PutComing(s) {
          PutStaysComing(m, s, step);
        }
      }
    }
  }

  lemma {:induction false} AttendedFrom<E, S, P>(m: Mosh<E, S, P>, s: State<E, S, P>, steps: seq<Step>)
    requires BooksInv(s.books, s.mutex) && Attended(s) && Run(m, s, steps)
    ensures AlwaysAttended(m, s, steps) <==> ParksAttended(m, s, steps)
    decreases steps
  {
    hide BooksInv, Attended, Do, Enabled;
    if steps != [] {
      StepKeepsBooks(m, s, steps[0]);
      if steps[0].Park? {
        ParkAttended(m, s);
      } else {
        OthersKeepAttended(m, s, steps[0]);
      }
      if Attended(Do(m, s, steps[0])) {
        AttendedFrom(m, Do(m, s, steps[0]), steps[1..]);
      }
    }
  }

  /**
   * A reader is never asleep on a change that nobody is about to hand to it exactly if it enters its select
   * only with nothing to show or a put still coming.
   */
  lemma AttendedExactly<E, S, P>(m: Mosh<E, S, P>, interval: int, ids: set<nat>, now: int, steps: seq<Step>)
    requires Run(m, Init(m, interval, ids, now), steps)
    ensures AlwaysAttended(m, Init(m, interval, ids, now), steps)
       <==> ParksAttended(m, Init(m, interval, ids, now), steps)
  {
    AttendedFrom(m, Init(m, interval, ids, now), steps);
  }

  /** The put that is coming wakes the reader; and a reader that nobody gave up on has one coming for every change. */
  lemma SafeMeansWoken<E, S, P>(m: Mosh<E, S, P>, interval: int, ids: set<nat>, now: int, steps: seq<Step>)
    returns (step: Step)
    requires Run(m, Init(m, interval, ids, now), steps)
    requires var t := After(m, Init(m, interval, ids, now), steps);
             t.updates.reader.Parked? && Changed(t) && (ParkedSafely(t) || PutComing(t))
    ensures var t := After(m, Init(m, interval, ids, now), steps);
            Enabled(t, step) && PutStep(step) && Do(m, t, step).updates.reader.Clearing?
  {
    NothingForgotten(m, interval, ids, now, steps);
    var t := After(m, Init(m, interval, ids, now), steps);
    if w :| w in t.writers && t.writers[w].Notifying? {
      step := WriteNotify(w);
    } else if e :| e in t.books.epochs && t.books.epochs[e].Announcing? {
      step := CloseNotify(e);
    } else {
      step := PullNotify;
    }
  }

  /** A reader that saw the flag down, up to just before its select. */
  lemma ReaderAtSelect<E, S, P>(m: Mosh<E, S, P>) returns (steps: seq<Step>)
    ensures Run(m, Init(m, 0, {0}, 0), steps)
    ensures var s, t := Init(m, 0, {0}, 0), After(m, Init(m, 0, {0}, 0), steps);
            && t.updates == Updates(false, Selecting(1, 0))
            && t.writers == s.writers && t.books == s.books && t.puller == s.puller && t.mutex == None
  {
    var s := Init(m, 0, {0}, 0);
    steps := [];
    Extend(m, s, steps, Read(|m.open|));
    steps := steps + [Read(|m.open|)];
    Extend(m, s, steps, Read(1));
    steps := steps + [Read(1)];
    Extend(m, s, steps, Gate);
    steps := steps + [Gate];
  }

  /** A keystroke arrives between the gate and the select; its notifier gives up and sets the flag. */
  lemma KeystrokeDropped<E, S, P>(m: Mosh<E, S, P>) returns (steps: seq<Step>)
    ensures Run(m, Init(m, 0, {0}, 0), steps)
    ensures var t := After(m, Init(m, 0, {0}, 0), steps);
            && t.updates == Updates(true, Selecting(1, 0)) && t.puller.Pulling?
            && t.writers.Keys == {0} && t.writers[0].Finishing? && t.books.epochs == map[] && Untold(t.books.calls)
  {
    var s := Init(m, 0, {0}, 0);
    steps := ReaderAtSelect(m);
    Extend(m, s, steps, Write(0, [65]));
    InputToShow(m, After(m, s, steps), 0, [65]);
    steps := steps + [Write(0, [65])];
    assert After(m, s, steps).writers[0].Notifying? && After(m, s, steps).books.epochs == map[];
    Extend(m, s, steps, WriteNotify(0));
    steps := steps + [WriteNotify(0)];
    assert After(m, s, steps).writers[0].Flagging? && After(m, s, steps).books.epochs == map[];
    Extend(m, s, steps, WriteFlag(0));
    steps := steps + [WriteFlag(0)];
  }

  /** So it happens: the reader sleeps on that change, and nobody is about to wake it. */
  lemma AsleepOnUpdate<E, S, P>(m: Mosh<E, S, P>) returns (steps: seq<Step>)
    ensures Run(m, Init(m, 0, {0}, 0), steps)
    ensures var t := After(m, Init(m, 0, {0}, 0), steps);
            t.updates == Updates(true, Parked(1, 0)) && Changed(t) && !InFlight(t)
  {
    var s := Init(m, 0, {0}, 0);
    steps := KeystrokeDropped(m);
    FlaggedBehindItsBack(m, s, steps);
    Extend(m, s, steps, WriteFinish(0));
    steps := steps + [WriteFinish(0)];
    Extend(m, s, steps, Park);
    steps := steps + [Park];
  }

  lemma FlaggedBehindItsBack<E, S, P>(m: Mosh<E, S, P>, s: State<E, S, P>, steps: seq<Step>)
    requires Run(m, s, steps)
    requires var t := After(m, s, steps);
             && t.updates == Updates(true, Selecting(1, 0)) && t.puller.Pulling?
             && t.writers.Keys == {0} && t.writers[0].Finishing? && t.books.epochs == map[] && Untold(t.books.calls)
    ensures Enabled(After(m, s, steps), WriteFinish(0))
    ensures var t := Do(m, After(m, s, steps), WriteFinish(0));
            t.updates == Updates(true, Selecting(1, 0)) && !InFlight(t) && Untold(t.books.calls)
  {
    FinishShowsNothing(m, After(m, s, steps), 0);
    var t := Do(m, After(m, s, steps), WriteFinish(0));
    assert t.writers.Keys == {0} && t.writers[0].Submitting?;
  }
}
