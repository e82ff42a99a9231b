/** The epoch bookkeeping of the interposer, in every run. */
module InterposerEpochs {
  import opened Basics
  import opened InterposerProtocol

  ghost predicate Open(epochs: map<nat, Epoch>, e: nat) {
    e in epochs && !epochs[e].Closed()
  }

  ghost function OpenEpochs(epochs: map<nat, Epoch>): set<nat> {
    set e | e in epochs && !epochs[e].Closed()
  }

  // ----- closes in any order -----

  ghost predicate BooksInv<S, P>(b: Books<S, P>, mutex: Option<nat>) {
    && (forall e :: e in b.epochs <==> 1 <= e <= b.epoch)
    && b.lastSent == b.epoch
    && (b.lastAcked > 0 ==> b.lastAcked in b.epochs && b.epochs[b.lastAcked].Closed())
    && (!b.pendingEpoch && b.epoch > 0 ==> b.epochs[b.epoch].Closed())
    && (!b.pendingEpoch && mutex == None ==> b.pendingStarted == None)
  }

  /** The steps that touch the books. */
  ghost predicate BookStep(step: Step) {
    step.Write? || step.WriteFinish? || step.WriteSubmit? || step.Close? || step.CloseNotify? || step.CloseFlag?
    || step.MakeFrame?
  }

  lemma BooksUntouched<E, S, P>(m: Mosh<E, S, P>, s: State<E, S, P>, step: Step)
    requires Enabled(s, step) && !BookStep(step)
    ensures var t := Do(m, s, step);
            t.books == s.books && t.mutex == s.mutex && t.clock.now >= s.clock.now && t.clock.frames == s.clock.frames
  {
  }

  lemma StepKeepsBooks<E, S, P>(m: Mosh<E, S, P>, s: State<E, S, P>, step: Step)
    requires BooksInv(s.books, s.mutex) && Enabled(s, step)
    ensures BooksInv(Do(m, s, step).books, Do(m, s, step).mutex)
  {
    if !BookStep(step) {
      BooksUntouched(m, s, step);
    }
  }

  lemma {:induction false} RunKeepsBooks<E, S, P>(m: Mosh<E, S, P>, s: State<E, S, P>, steps: seq<Step>)
    requires BooksInv(s.books, s.mutex) && Run(m, s, steps)
    ensures BooksInv(After(m, s, steps).books, After(m, s, steps).mutex)
    decreases steps
  {
    hide BooksInv, Do, Enabled;
    if steps != [] {
      StepKeepsBooks(m, s, steps[0]);
      RunKeepsBooks(m, Do(m, s, steps[0]), steps[1..]);
    }
  }

  /** With closes in any order: no pending epoch means the newest is closed, and the latency clock is off. */
  lemma NotPending<E, S, P>(m: Mosh<E, S, P>, interval: int, ids: set<nat>, now: int, steps: seq<Step>)
    requires Run(m, Init(m, interval, ids, now), steps)
    ensures var t := After(m, Init(m, interval, ids, now), steps);
            var b := t.books;
            && b.lastAcked <= b.lastSent == b.epoch
            && (!b.pendingEpoch ==> b.epoch == 0 || (b.epoch in b.epochs && b.epochs[b.epoch].Closed()))
            && (!b.pendingEpoch && t.mutex == None ==> b.pendingStarted == None)
  {
    RunKeepsBooks(m, Init(m, interval, ids, now), steps);
  }

  // ----- when pendingEpoch is exact -----

  ghost predicate Exact<S, P>(b: Books<S, P>) {
    b.pendingEpoch <==> OpenEpochs(b.epochs) != {}
  }

  ghost predicate ExactThroughout<E, S, P>(m: Mosh<E, S, P>, s: State<E, S, P>, steps: seq<Step>)
    requires Run(m, s, steps)
    decreases steps
  {
    Exact(s.books) && (steps == [] || ExactThroughout(m, Do(m, s, steps[0]), steps[1..]))
  }

  /** The newest epoch is closed last of those open, and no other is. */
  ghost predicate TellingClose<S, P>(b: Books<S, P>, e: nat) {
    e == b.epoch <==> OpenEpochs(b.epochs) == {e}
  }

  ghost predicate ClosesTelling<E, S, P>(m: Mosh<E, S, P>, s: State<E, S, P>, steps: seq<Step>)
    requires Run(m, s, steps)
    decreases steps
  {
    steps == [] || ((steps[0].Close? ==> TellingClose(s.books, steps[0].e))
                    && ClosesTelling(m, Do(m, s, steps[0]), steps[1..]))
  }

  lemma CloseExact<E, S, P>(m: Mosh<E, S, P>, s: State<E, S, P>, e: nat)
    requires BooksInv(s.books, s.mutex) && Enabled(s, Close(e))
    ensures Exact(Do(m, s, Close(e)).books) <==> TellingClose(s.books, e)
  {
    var before, after := OpenEpochs(s.books.epochs), OpenEpochs(Do(m, s, Close(e)).books.epochs);
    assert e in before;
    assert after == before - {e};
    assert after == {} <==> before == {e};
  }

  lemma OthersKeepExact<E, S, P>(m: Mosh<E, S, P>, s: State<E, S, P>, step: Step)
    requires BooksInv(s.books, s.mutex) && Enabled(s, step) && !step.Close? && Exact(s.books)
    ensures Exact(Do(m, s, step).books)
  {
    var t := Do(m, s, step);
    var before, after := OpenEpochs(s.books.epochs), OpenEpochs(t.books.epochs);
    if !BookStep(step) {
      BooksUntouched(m, s, step);
    } else if step.WriteFinish? {
      assert t.books.epoch in after;
    } else {
      assert after == before;
    }
  }

  /**
   * `pendingEpoch` always says whether an epoch is open exactly if every close is of the newest epoch just when it is
   * the only one open.
   */
  lemma PendingExactly<E, S, P>(m: Mosh<E, S, P>, interval: int, ids: set<nat>, now: int, steps: seq<Step>)
    requires Run(m, Init(m, interval, ids, now), steps)
    ensures ExactThroughout(m, Init(m, interval, ids, now), steps)
       <==> ClosesTelling(m, Init(m, interval, ids, now), steps)
  {
    PendingExactlyFrom(m, Init(m, interval, ids, now), steps);
  }

  lemma {:induction false} PendingExactlyFrom<E, S, P>(m: Mosh<E, S, P>, s: State<E, S, P>, steps: seq<Step>)
    requires BooksInv(s.books, s.mutex) && Exact(s.books) && Run(m, s, steps)
    ensures ExactThroughout(m, s, steps) <==> ClosesTelling(m, s, steps)
    decreases steps
  {
    hide Do, Enabled, BooksInv, Exact;
    if steps != [] {
      var t := Do(m, s, steps[0]);
      StepKeepsBooks(m, s, steps[0]);
      if steps[0].Close? {
        CloseExact(m, s, steps[0].e);
      } else {
        OthersKeepExact(m, s, steps[0]);
      }
      if Exact(t.books) {
        PendingExactlyFrom(m, t, steps[1..]);
      }
    }
  }

  // ----- closes in order -----

  ghost predicate Holds(wr: Writer) {
    wr.Notifying? || wr.Flagging? || wr.Finishing?
  }

  /** emulatorMutex is held by exactly the writer that is in its lock region. */
  ghost predicate MutexInv(writers: map<nat, Writer>, mutex: Option<nat>) {
    forall w :: w in writers && Holds(writers[w]) ==> mutex == Some(w)
  }

  lemma StepKeepsMutex<E, S, P>(m: Mosh<E, S, P>, s: State<E, S, P>, step: Step)
    requires MutexInv(s.writers, s.mutex) && Enabled(s, step)
    ensures MutexInv(Do(m, s, step).writers, Do(m, s, step).mutex)
  {
  }

  ghost predicate InOrder(epochs: map<nat, Epoch>) {
    forall d, e :: d in epochs && e in epochs && d < e && epochs[e].Closed() ==> epochs[d].Closed()
  }

  /** Every close finds all earlier epochs closed. */
  ghost predicate ClosesInOrder<E, S, P>(m: Mosh<E, S, P>, s: State<E, S, P>, steps: seq<Step>)
    requires Run(m, s, steps)
    decreases steps
  {
    steps == []
    || ((steps[0].Close? ==> forall d :: d in s.books.epochs && d < steps[0].e ==> s.books.epochs[d].Closed())
        && ClosesInOrder(m, Do(m, s, steps[0]), steps[1..]))
  }

  /** The latency clock started no later than anything still open, and not in the future. */
  ghost predicate Oldest<E, S, P>(s: State<E, S, P>, started: int) {
    && started <= s.clock.now
    && (forall e :: Open(s.books.epochs, e) ==> started <= s.books.epochs[e].openedAt)
    && (forall w :: w in s.writers && Holds(s.writers[w]) ==> started <= s.writers[w].began)
  }

  ghost predicate OrderedInv<E, S, P>(s: State<E, S, P>) {
    var b := s.books;
    && BooksInv(b, s.mutex) && MutexInv(s.writers, s.mutex) && InOrder(b.epochs)
    && (b.pendingEpoch ==> b.epoch > 0 && !b.epochs[b.epoch].Closed())
    && (b.pendingEpoch || s.mutex.Some? <==> b.pendingStarted.Some?)
    && (b.pendingStarted.Some? ==> Oldest(s, b.pendingStarted.value))
  }

  lemma WriteKeepsOrdered<E, S, P>(m: Mosh<E, S, P>, s: State<E, S, P>, w: nat, p: seq<byte>)
    requires OrderedInv(s) && Enabled(s, Write(w, p))
    ensures OrderedInv(Do(m, s, Write(w, p)))
  {
    StepKeepsBooks(m, s, Write(w, p));
    StepKeepsMutex(m, s, Write(w, p));
  }

  lemma FinishKeepsOrdered<E, S, P>(m: Mosh<E, S, P>, s: State<E, S, P>, w: nat)
    requires OrderedInv(s) && Enabled(s, WriteFinish(w))
    ensures OrderedInv(Do(m, s, WriteFinish(w)))
  {
    StepKeepsBooks(m, s, WriteFinish(w));
    StepKeepsMutex(m, s, WriteFinish(w));
    assert Holds(s.writers[w]);
  }

  lemma CloseKeepsOrdered<E, S, P>(m: Mosh<E, S, P>, s: State<E, S, P>, e: nat)
    requires OrderedInv(s) && Enabled(s, Close(e))
    requires forall d :: d in s.books.epochs && d < e ==> s.books.epochs[d].Closed()
    ensures OrderedInv(Do(m, s, Close(e)))
  {
    StepKeepsBooks(m, s, Close(e));
    StepKeepsMutex(m, s, Close(e));
    assert forall d :: Open(Do(m, s, Close(e)).books.epochs, d) ==> Open(s.books.epochs, d);
  }

  lemma OthersKeepOrdered<E, S, P>(m: Mosh<E, S, P>, s: State<E, S, P>, step: Step)
    requires OrderedInv(s) && Enabled(s, step) && !step.Write? && !step.WriteFinish? && !step.Close?
    ensures OrderedInv(Do(m, s, step))
  {
    var t := Do(m, s, step);
    StepKeepsBooks(m, s, step);
    StepKeepsMutex(m, s, step);
    OthersLeaveBooks(m, s, step);
    if s.books.pendingStarted.Some? {
      OthersKeepOldest(m, s, step, s.books.pendingStarted.value);
    }
  }

  lemma OthersLeaveBooks<E, S, P>(m: Mosh<E, S, P>, s: State<E, S, P>, step: Step)
    requires Enabled(s, step) && !step.Write? && !step.WriteFinish? && !step.Close?
    ensures var b, c := s.books, Do(m, s, step).books;
            && c.epoch == b.epoch && c.pendingEpoch == b.pendingEpoch && c.pendingStarted == b.pendingStarted
            && c.epochs.Keys == b.epochs.Keys && Do(m, s, step).mutex == s.mutex
            && forall e :: e in b.epochs ==> && c.epochs[e].Closed() == b.epochs[e].Closed()
                                             && c.epochs[e].openedAt == b.epochs[e].openedAt
  {
    if !BookStep(step) {
      BooksUntouched(m, s, step);
      hide Do, Enabled;
    }
  }

  lemma OthersKeepHolders<E, S, P>(m: Mosh<E, S, P>, s: State<E, S, P>, step: Step, w: nat)
    requires Enabled(s, step) && !step.Write? && w in Do(m, s, step).writers && Holds(Do(m, s, step).writers[w])
    ensures w in s.writers && Holds(s.writers[w]) && s.writers[w].began == Do(m, s, step).writers[w].began
  {
  }

  lemma OthersKeepOldest<E, S, P>(m: Mosh<E, S, P>, s: State<E, S, P>, step: Step, started: int)
    requires Enabled(s, step) && !step.Write? && !step.WriteFinish? && !step.Close? && Oldest(s, started)
    ensures Oldest(Do(m, s, step), started)
  {
    var t := Do(m, s, step);
    OthersLeaveBooks(m, s, step);
    ClockGoesOn(m, s, step);
    forall w | w in t.writers && Holds(t.writers[w]) ensures started <= t.writers[w].began {
      OthersKeepHolders(m, s, step, w);
    }
  }

  lemma ClockGoesOn<E, S, P>(m: Mosh<E, S, P>, s: State<E, S, P>, step: Step)
    requires Enabled(s, step)
    ensures Do(m, s, step).clock.now >= s.clock.now
  {
  }

  lemma {:induction false} RunKeepsOrdered<E, S, P>(m: Mosh<E, S, P>, s: State<E, S, P>, steps: seq<Step>)
    requires OrderedInv(s) && Run(m, s, steps) && ClosesInOrder(m, s, steps)
    ensures OrderedInv(After(m, s, steps))
    decreases steps
  {
    hide OrderedInv, Do, Enabled;
    if steps != [] {
      match steps[0] {
        case Write(w, p) => WriteKeepsOrdered(m, s, w, p);
        case WriteFinish(w) => FinishKeepsOrdered(m, s, w);
        case Close(e) => CloseKeepsOrdered(m, s, e);
        case _ => OthersKeepOrdered(m, s, steps[0]);
      }
      RunKeepsOrdered(m, Do(m, s, steps[0]), steps[1..]);
    }
  }

  /**
   * With closes in order, `pendingEpoch` says exactly whether an epoch is open, and the latency clock runs
   * exactly then, from no later than the opening of anything still open.
   */
  lemma PendingInOrder<E, S, P>(m: Mosh<E, S, P>, interval: int, ids: set<nat>, now: int, steps: seq<Step>)
    requires Run(m, Init(m, interval, ids, now), steps) && ClosesInOrder(m, Init(m, interval, ids, now), steps)
    ensures var t := After(m, Init(m, interval, ids, now), steps);
            var b := t.books;
            && Exact(b)
            && (t.mutex == None ==> (b.pendingEpoch <==> b.pendingStarted.Some?))
            && (b.pendingStarted.Some? ==>
                  forall e :: Open(b.epochs, e) ==> b.pendingStarted.value <= b.epochs[e].openedAt)
  {
    RunKeepsOrdered(m, Init(m, interval, ids, now), steps);
    OrderedIsExact(After(m, Init(m, interval, ids, now), steps));
  }

  lemma OrderedIsExact<E, S, P>(s: State<E, S, P>)
    requires OrderedInv(s)
    ensures Exact(s.books)
  {
    var b := s.books;
    if b.pendingEpoch {
      assert b.epoch in OpenEpochs(b.epochs);
    }
  }

  // ----- closes out of order -----

  /** Nobody is in a lock region, and writer 0 is the only one there is. */
  ghost predicate OneOutside<E, S, P>(t: State<E, S, P>) {
    t.mutex == None && t.writers == map[0 := Outside] && t.screens.snapshots != []
  }

  /** One whole call of Write with an empty argument. */
  lemma EmptyWrite<E, S, P>(m: Mosh<E, S, P>, s: State<E, S, P>, steps: seq<Step>, t: State<E, S, P>)
    returns (longer: seq<Step>, u: State<E, S, P>)
    requires Reaches(m, s, steps, t) && OneOutside(t)
    ensures Reaches(m, s, longer, u) && OneOutside(u) && u.clock == t.clock
    ensures u.books.epoch == t.books.epoch + 1 && u.books.pendingEpoch
    ensures u.books.pendingStarted
         == if t.books.pendingStarted == None then Some(t.clock.now) else t.books.pendingStarted
    ensures u.books.epochs == t.books.epochs[t.books.epoch + 1 := Waiting(t.clock.now)]
  {
    hide Reaches;
    longer, u := Advance(m, s, steps, t, Write(0, []));
    longer, u := Advance(m, s, longer, u, WriteFinish(0));
    longer, u := Advance(m, s, longer, u, WriteSubmit(0));
  }

  /** Closing the newer of two epochs first leaves `pendingEpoch` false with an epoch open. */
  lemma OpenButNotPending<E, S, P>(m: Mosh<E, S, P>) returns (steps: seq<Step>, t: State<E, S, P>)
    ensures Reaches(m, Init(m, 0, {0}, 0), steps, t)
    ensures !t.books.pendingEpoch && t.books.pendingStarted == None
    ensures t.books.epoch == 2 && t.books.epochs == map[1 := Waiting(0), 2 := Announcing(0)]
    ensures OneOutside(t) && t.clock.now == 0
  {
    var s := Init(m, 0, {0}, 0);
    steps, t := [], s;
    assert Reaches(m, s, steps, t) && OneOutside(t);
    hide Reaches;
    steps, t := EmptyWrite(m, s, steps, t);
    steps, t := EmptyWrite(m, s, steps, t);
    steps, t := Advance(m, s, steps, t, Close(2));
  }

  /** After that the latency clock can start later than the opening of an epoch that is still open. */
  lemma StartedTooLate<E, S, P>(m: Mosh<E, S, P>) returns (steps: seq<Step>, t: State<E, S, P>)
    ensures Reaches(m, Init(m, 0, {0}, 0), steps, t)
    ensures Open(t.books.epochs, 1) && t.books.epochs[1].openedAt == 0 && t.books.pendingStarted == Some(5)
  {
    hide Reaches;
    var s := Init(m, 0, {0}, 0);
    steps, t := OpenButNotPending(m);
    steps, t := Advance(m, s, steps, t, Tick(5));
    steps, t := EmptyWrite(m, s, steps, t);
  }

  /** Closing the older epoch after it leaves `pendingEpoch` true with nothing open. */
  lemma PendingButAllClosed<E, S, P>(m: Mosh<E, S, P>) returns (steps: seq<Step>, t: State<E, S, P>)
    ensures Reaches(m, Init(m, 0, {0}, 0), steps, t)
    ensures t.books.pendingEpoch && OpenEpochs(t.books.epochs) == {}
  {
    hide Reaches;
    steps, t := OpenButNotPending(m);
    steps, t := Advance(m, Init(m, 0, {0}, 0), steps, t, Close(1));
  }

  // ----- when the latency clock is right -----

  /** The latency clock, if it runs, started no later than the opening of any epoch still open. */
  ghost predicate EarlyEnough<S, P>(b: Books<S, P>) {
    b.pendingStarted.Some? ==> forall e :: Open(b.epochs, e) ==> b.pendingStarted.value <= b.epochs[e].openedAt
  }

  /** A Write finds the latency clock off and an epoch open that was opened before now. */
  ghost predicate StartsLate<E, S, P>(s: State<E, S, P>, step: Step) {
    && step.Write? && s.books.pendingStarted == None
    && exists e :: Open(s.books.epochs, e) && s.books.epochs[e].openedAt < s.clock.now
  }

  ghost predicate EarlyThroughout<E, S, P>(m: Mosh<E, S, P>, s: State<E, S, P>, steps: seq<Step>)
    requires Run(m, s, steps)
    decreases steps
  {
    EarlyEnough(s.books) && (steps == [] || EarlyThroughout(m, Do(m, s, steps[0]), steps[1..]))
  }

  ghost predicate NeverStartsLate<E, S, P>(m: Mosh<E, S, P>, s: State<E, S, P>, steps: seq<Step>)
    requires Run(m, s, steps)
    decreases steps
  {
    steps == [] || (!StartsLate(s, steps[0]) && NeverStartsLate(m, Do(m, s, steps[0]), steps[1..]))
  }

  /** The writer in its lock region began no earlier than the latency clock, and nothing is in the future. */
  ghost predicate HolderInTime<E, S, P>(s: State<E, S, P>) {
    && BooksInv(s.books, s.mutex) && MutexInv(s.writers, s.mutex)
    && (s.books.pendingStarted.Some? ==>
          && s.books.pendingStarted.value <= s.clock.now
          && forall w :: w in s.writers && Holds(s.writers[w]) ==> s.books.pendingStarted.value <= s.writers[w].began)
  }

  lemma StepKeepsHolder<E, S, P>(m: Mosh<E, S, P>, s: State<E, S, P>, step: Step)
    requires HolderInTime(s) && Enabled(s, step)
    ensures HolderInTime(Do(m, s, step))
  {
    StepKeepsBooks(m, s, step);
    StepKeepsMutex(m, s, step);
    var t := Do(m, s, step);
    forall w | w in t.writers && Holds(t.writers[w]) && t.books.pendingStarted.Some?
      ensures t.books.pendingStarted.value <= t.writers[w].began
    {
      assert step.Write? || (w in s.writers && Holds(s.writers[w]));
    }
  }

  lemma WriteEarly<E, S, P>(m: Mosh<E, S, P>, s: State<E, S, P>, w: nat, p: seq<byte>)
    requires EarlyEnough(s.books) && Enabled(s, Write(w, p))
    ensures EarlyEnough(Do(m, s, Write(w, p)).books) <==> !StartsLate(s, Write(w, p))
  {
    var b, c := s.books, Do(m, s, Write(w, p)).books;
    assert c.epochs == b.epochs;
    assert b.pendingStarted == None ==> c.pendingStarted == Some(s.clock.now);
    assert b.pendingStarted.Some? ==> c.pendingStarted == b.pendingStarted;
  }

  lemma OthersEarly<E, S, P>(m: Mosh<E, S, P>, s: State<E, S, P>, step: Step)
    requires HolderInTime(s) && EarlyEnough(s.books) && Enabled(s, step) && !step.Write?
    ensures EarlyEnough(Do(m, s, step).books)
  {
    var b, c := s.books, Do(m, s, step).books;
    if !BookStep(step) {
      BooksUntouched(m, s, step);
    } else if c.pendingStarted.Some? {
      forall e | Open(c.epochs, e) ensures c.pendingStarted.value <= c.epochs[e].openedAt {
        assert Open(b.epochs, e) || (step.WriteFinish? && c.epochs[e].openedAt == s.writers[step.w].began);
      }
    }
  }

  lemma {:induction false} EarlyFrom<E, S, P>(m: Mosh<E, S, P>, s: State<E, S, P>, steps: seq<Step>)
    requires HolderInTime(s) && EarlyEnough(s.books) && Run(m, s, steps)
    ensures EarlyThroughout(m, s, steps) <==> NeverStartsLate(m, s, steps)
    decreases steps
  {
    hide HolderInTime, EarlyEnough, Do, Enabled;
    if steps != [] {
      StepKeepsHolder(m, s, steps[0]);
      if steps[0].Write? {
        WriteEarly(m, s, steps[0].w, steps[0].p);
      } else {
        OthersEarly(m, s, steps[0]);
      }
      if EarlyEnough(Do(m, s, steps[0]).books) {
        EarlyFrom(m, Do(m, s, steps[0]), steps[1..]);
      }
    }
  }

  /**
   * With closes in any order, the latency clock is always no later than the opening of every open epoch
   * exactly if no Write that finds it off finds an epoch open that was opened before now.
   */
  lemma LatencyExactly<E, S, P>(m: Mosh<E, S, P>, interval: int, ids: set<nat>, now: int, steps: seq<Step>)
    requires Run(m, Init(m, interval, ids, now), steps)
    ensures EarlyThroughout(m, Init(m, interval, ids, now), steps)
       <==> NeverStartsLate(m, Init(m, interval, ids, now), steps)
  {
    EarlyFrom(m, Init(m, interval, ids, now), steps);
  }
}
