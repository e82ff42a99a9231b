/**
 * The interposer as an object. A new object is Valid. Each of the methods for the steps does to the fields
 * exactly what one step of the protocol does to their view as a value, and keeps the object Valid. Whole calls
 * of Read, Write, CloseEpoch and the puller's loop, with nothing in between, are put together from them.
 */
module InterposerObject {
  import opened Basics
  import opened InterposerProtocol
  import opened InterposerScreens
  import opened InterposerEpochs
  import opened InterposerContract
  import opened InterposerUpdates
  import opened InterposerReplies

  /** What every method keeps. */
  ghost predicate Inv<E, S, P>(m: Mosh<E, S, P>, s: State<E, S, P>) {
    Sound(s) && Emulated(m, s.screens) && BooksInv(s.books, s.mutex) && Remembered(s)
  }

  lemma StepKeepsInv<E, S, P>(m: Mosh<E, S, P>, s: State<E, S, P>, step: Step)
    requires Inv(m, s) && Enabled(s, step)
    ensures Inv(m, Do(m, s, step))
  {
    SoundStep(m, s, step);
    StepKeepsEmulated(m, s, step);
    StepKeepsBooks(m, s, step);
    StepKeepsRemembered(m, s, step);
  }

  /** A change that nobody is about to announce is flagged. */
  lemma GateOpens<E, S, P>(m: Mosh<E, S, P>, s: State<E, S, P>)
    requires Inv(m, s) && s.updates.reader.AtGate?
    ensures Changed(s) && !InFlight(s) ==> s.updates.dropped
  {
  }

  // ----- what some steps do, and what they leave alone -----

  lemma WriteParts<E, S, P>(m: Mosh<E, S, P>, s: State<E, S, P>, w: nat, p: seq<byte>)
    requires Enabled(s, Step.Write(w, p))
    ensures var t, now := Do(m, s, Step.Write(w, p)), s.clock.now;
            var told := if s.books.pendingStarted == None then s.books.predictor
                        else m.sendInterval(s.books.predictor, now - s.books.pendingStarted.value);
            var host := Flatten(Replies(m, s.screens.emulator, p));
            && t.screens.emulator == Fed(m, s.screens.emulator, p)
            && t.books.predictor == Guessed(m, told, s.display.localState, p) && t.mutex == Some(w)
            && t.writers == s.writers[w := if p == [] then Finishing(now, host) else Writer.Notifying(now, host)]
            && t.display.initialized == (s.display.initialized && 0x0c !in p)
            && t.books.pendingStarted == if s.books.pendingStarted == None then Some(now) else s.books.pendingStarted
  {
    TypeFeeds(m, s.screens.emulator, Told(m, s.books, s.clock.now), s.display.localState, p);
  }

  lemma SameChange<E, S, P>(s: State<E, S, P>, t: State<E, S, P>)
    requires s.screens == t.screens && s.books == t.books && s.clock.frames == t.clock.frames
    requires s.writers == t.writers && s.puller == t.puller
    ensures Changed(s) == Changed(t) && InFlight(s) == InFlight(t)
  {
  }

  lemma CloseLeaves<E, S, P>(m: Mosh<E, S, P>, s: State<E, S, P>, e: nat)
    requires Enabled(s, Close(e))
    ensures var t := InterposerProtocol.CloseEpoch(m, s, e);
            && Do(m, s, Close(e)) == t && t.display == s.display && t.clock == s.clock
            && t.mutex == s.mutex && t.writers == s.writers && t.puller == s.puller && t.submitted == s.submitted
  {
  }

  lemma ReadLeaves<E, S, P>(m: Mosh<E, S, P>, s: State<E, S, P>, size: nat)
    requires Enabled(s, Step.Read(size))
    ensures var t := InterposerProtocol.BeginRead(m, s, size);
            && Do(m, s, Step.Read(size)) == t && t.screens == s.screens && t.books == s.books && t.clock == s.clock
            && t.mutex == s.mutex && t.writers == s.writers && t.puller == s.puller && t.submitted == s.submitted
  {
  }

  lemma FrameLeaves<E, S, P>(m: Mosh<E, S, P>, s: State<E, S, P>)
    requires Enabled(s, MakeFrame)
    ensures var t := NewFrame(m, s);
            && Do(m, s, MakeFrame) == t && t.screens == s.screens
            && t.mutex == s.mutex && t.writers == s.writers && t.puller == s.puller && t.submitted == s.submitted
  {
  }

  lemma DeliverLeaves<E, S, P>(m: Mosh<E, S, P>, s: State<E, S, P>)
    requires Enabled(s, Deliver)
    ensures var t := InterposerProtocol.DeliverFrame(s);
            && Do(m, s, Deliver) == t && t.screens == s.screens && t.books == s.books
            && t.mutex == s.mutex && t.writers == s.writers && t.puller == s.puller && t.submitted == s.submitted
  {
  }

  class Interposer<E, S, P> {
    const mosh: Mosh<E, S, P>
    const coalesceInterval: int
    var emulator: E
    var predictor: P
    var pendingRemoteState: S
    var completeRemoteState: S
    var localState: S
    var initialized: bool
    var isOpen: bool
    var pending: Option<seq<byte>>
    var droppedUpdate: bool
    var lastUpdated: Option<int>
    var epoch: nat
    var pendingEpoch: bool
    var pendingEpochStarted: Option<int>
    var emulatorMutex: Option<nat>
    var clock: int
    // the goroutines
    var writers: map<nat, Writer>
    var epochs: map<nat, Epoch>
    var puller: Puller<S>
    var reader: Reader
    // history
    ghost var events: seq<Event>
    ghost var snapshots: seq<Snapshot<S>>
    ghost var completeIndex: nat
    ghost var arriving: nat
    ghost var lastSent: nat
    ghost var lastAcked: nat
    ghost var calls: seq<Call<S>>
    ghost var output: seq<byte>
    ghost var frames: seq<Frame<S>>
    ghost var submitted: seq<Submission>

    ghost function ScreensView(): Screens<E, S>
      reads this`emulator, this`pendingRemoteState, this`completeRemoteState
      reads this`events, this`snapshots, this`completeIndex, this`arriving
    {
      Screens(emulator, pendingRemoteState, completeRemoteState, events, snapshots, completeIndex, arriving)
    }

    ghost function DisplayView(): Display<S>
      reads this`localState, this`initialized, this`isOpen, this`pending, this`output
    {
      Display(localState, initialized, isOpen, pending, output)
    }

    ghost function BooksView(): Books<S, P>
      reads this`predictor, this`epoch, this`pendingEpoch, this`pendingEpochStarted, this`epochs
      reads this`lastSent, this`lastAcked, this`calls
    {
      Books(predictor, epoch, pendingEpoch, pendingEpochStarted, epochs, lastSent, lastAcked, calls)
    }

    ghost function ClockView(): Clock<S>
      reads this`clock, this`lastUpdated, this`frames
    {
      Clock(clock, coalesceInterval, lastUpdated, frames)
    }

    ghost function UpdatesView(): Updates
      reads this`droppedUpdate, this`reader
    {
      Updates(droppedUpdate, reader)
    }

    ghost function View(): State<E, S, P>
      reads this
    {
      State(ScreensView(), DisplayView(), BooksView(), UpdatesView(), ClockView(),
            emulatorMutex, writers, puller, submitted)
    }

    ghost predicate Valid()
      reads this
    {
      Inv(mosh, View())
    }

    constructor Interpose(mosh: Mosh<E, S, P>, coalesceInterval: int, ids: set<nat>, now: int)
      ensures Valid() && View() == Init(mosh, coalesceInterval, ids, now) && this.mosh == mosh
    {
      this.mosh, this.coalesceInterval, clock := mosh, coalesceInterval, now;
      emulator, predictor := mosh.emulator, mosh.engine;
      pendingRemoteState, completeRemoteState, localState := mosh.blank, mosh.blank, mosh.blank;
      initialized, isOpen, pending, droppedUpdate, lastUpdated := false, false, None, false, None;
      epoch, pendingEpoch, pendingEpochStarted, emulatorMutex := 0, false, None, None;
      writers, epochs, puller, reader := map w | w in ids :: Outside, map[], Pulling, Away;
      events, snapshots, completeIndex, arriving := [], [Snapshot(mosh.blank, 0, 0)], 0, 0;
      lastSent, lastAcked, calls, output, frames, submitted := 0, 0, [], [], [], [];
    }

    // ----- Write -----

    /** The byte loop of Write. */
    method TypeBytes(p: seq<byte>) returns (host: seq<byte>)
      modifies this`emulator, this`predictor, this`initialized
      ensures emulator == Fed(mosh, old(emulator), p) && predictor == Guessed(mosh, old(predictor), localState, p)
      ensures host == Flatten(Replies(mosh, old(emulator), p))
      ensures initialized == (old(initialized) && 0x0c !in p)
    {
      host := [];
      var i := 0;
      while i < |p|
        invariant i <= |p|
        invariant emulator == Fed(mosh, old(emulator), p[..i])
        invariant predictor == Guessed(mosh, old(predictor), localState, p[..i])
        invariant host == Flatten(Replies(mosh, old(emulator), p[..i]))
        invariant initialized == (old(initialized) && 0x0c !in p[..i])
      {
        var b := p[i];
        TypeByte(mosh, old(emulator), old(predictor), localState, p, i);
        predictor := mosh.newUserByte(predictor, b, localState);
        host := host + mosh.reply(emulator, b);
        emulator := mosh.act(emulator, b);
        if b == REPAINT {
          initialized := false;
        }
        i := i + 1;
      }
      assert p[..i] == p;
    }

    /** The head of Write: start or read the latency clock. */
    method TellLatency(now: int)
      requires now == clock
      modifies this`predictor, this`pendingEpochStarted, this`calls
      ensures predictor == Told(mosh, old(BooksView()), now)
      ensures calls == old(calls) + Telling(old(BooksView()), now)
      ensures pendingEpochStarted == if old(pendingEpochStarted) == None then Some(now) else old(pendingEpochStarted)
    {
      if pendingEpochStarted == None {
        pendingEpochStarted := Some(now);
      } else {
        predictor := mosh.sendInterval(predictor, now - pendingEpochStarted.value);
        calls := calls + [Interval(now - pendingEpochStarted.value)];
      }
    }

    /** The input goes to the predictor and the emulator. */
    method FeedInput(p: seq<byte>, now: int) returns (host: seq<byte>)
      requires now == clock
      modifies this`emulator, this`predictor, this`initialized, this`pendingEpochStarted, this`events, this`calls
      ensures Typed(emulator, predictor, host)
              == Type(mosh, old(emulator), Told(mosh, old(BooksView()), now), localState, p)
      ensures events == old(events) + Acts(p)
      ensures calls == old(calls) + Telling(old(BooksView()), now) + Keys(p, localState)
      ensures initialized == (old(initialized) && REPAINT !in p)
      ensures pendingEpochStarted == if old(pendingEpochStarted) == None then Some(now) else old(pendingEpochStarted)
    {
      TellLatency(now);
      TypeFeeds(mosh, emulator, predictor, localState, p);
      host := TypeBytes(p);
      events, calls := events + Acts(p), calls + Keys(p, localState);
    }

    method TypeInput(p: seq<byte>, now: int) returns (host: seq<byte>)
      requires now == clock
      modifies this`emulator, this`predictor, this`initialized, this`pendingEpochStarted, this`events, this`calls
      ensures var typed := Type(mosh, old(emulator), Told(mosh, old(BooksView()), now), localState, p);
              && host == typed.host
              && ScreensView() == old(ScreensView()).(emulator := typed.emulator, events := old(events) + Acts(p))
              && BooksView() == old(BooksView()).(predictor := typed.predictor, pendingStarted := pendingEpochStarted,
                                                  calls := calls)
              && calls == old(calls) + Telling(old(BooksView()), now) + Keys(p, localState)
      ensures DisplayView() == old(DisplayView()).(initialized := old(initialized) && REPAINT !in p)
      ensures pendingEpochStarted == if old(pendingEpochStarted) == None then Some(now) else old(pendingEpochStarted)
    {
      hide Type, Told, Telling, Keys, Acts;
      host := FeedInput(p, now);
    }

    /** Write up to the notification; emulatorMutex stays locked. */
    method BeginWrite(w: nat, p: seq<byte>)
      requires Valid() && Enabled(View(), Step.Write(w, p))
      modifies this`emulator, this`predictor, this`initialized, this`pendingEpochStarted, this`emulatorMutex
      modifies this`writers, this`events, this`calls
      ensures Valid() && View() == Do(mosh, old(View()), Step.Write(w, p))
    {
      hide Inv;
      ghost var s := View();
      assert Do(mosh, s, Step.Write(w, p)) == InterposerProtocol.BeginWrite(mosh, s, w, p);
      hide Do, ClockView;
      StepKeepsInv(mosh, s, Step.Write(w, p));
      TypeLocked(w, p);
    }

    method TypeLocked(w: nat, p: seq<byte>)
      requires Enabled(View(), Step.Write(w, p))
      modifies this`emulator, this`predictor, this`initialized, this`pendingEpochStarted, this`emulatorMutex
      modifies this`writers, this`events, this`calls
      ensures var t := InterposerProtocol.BeginWrite(mosh, old(View()), w, p);
              && ScreensView() == t.screens && DisplayView() == t.display && BooksView() == t.books
              && UpdatesView() == t.updates && emulatorMutex == t.mutex && writers == t.writers
    {
      hide Type, Told, Telling, Keys, Acts;
      var host := TypeInput(p, clock);
      HoldForInput(w, p, host);
    }

    /** What Write goes on with: the notification, unless there was no input. */
    method HoldForInput(w: nat, p: seq<byte>, host: seq<byte>)
      modifies this`writers, this`emulatorMutex
      ensures emulatorMutex == Some(w)
      ensures writers == old(writers)[w := if p == [] then Finishing(clock, host) else Writer.Notifying(clock, host)]
    {
      emulatorMutex := Some(w);
      writers := writers[w := if |p| > 0 then Writer.Notifying(clock, host) else Finishing(clock, host)];
    }

    static lemma TypeByte(m: Mosh<E, S, P>, e: E, predictor: P, local: S, p: seq<byte>, i: nat)
      requires i < |p|
      ensures var front, b := p[..i], p[i];
              && Fed(m, e, p[..i + 1]) == m.act(Fed(m, e, front), b)
              && Guessed(m, predictor, local, p[..i + 1])
                 == m.newUserByte(Guessed(m, predictor, local, front), b, local)
              && Flatten(Replies(m, e, p[..i + 1])) == Flatten(Replies(m, e, front)) + m.reply(Fed(m, e, front), b)
      ensures 0x0c in p[..i + 1] <==> 0x0c in p[..i] || p[i] == REPAINT
    {
      var front, b := p[..i], p[i];
      assert p[..i + 1] == front + [b] && (front + [b])[..i] == front;
      RepliesSnoc(m, e, front, b);
      FlattenSnoc(Replies(m, e, front), m.reply(Fed(m, e, front), b));
    }

    /** The select on predictionNotification. */
    method NotifyPrediction(w: nat)
      requires Valid() && Enabled(View(), WriteNotify(w))
      modifies this`writers, this`reader
      ensures Valid() && View() == Do(mosh, old(View()), WriteNotify(w))
    {
      hide Inv, ScreensView, DisplayView, BooksView, ClockView;
      StepKeepsInv(mosh, View(), WriteNotify(w));
      var wr := writers[w];
      writers := writers[w := if reader.Parked? then Finishing(wr.began, wr.host)
                              else Writer.Flagging(wr.began, wr.host)];
      HandToReader(true);
    }

    /** A value reaches the reader if it is in its select. */
    method HandToReader(prediction: bool)
      modifies this`reader
      ensures UpdatesView() == Notify(old(UpdatesView()), prediction)
    {
      if reader.Parked? {
        reader := Clearing(reader.size, reader.began, prediction);
      }
    }

    method FlagPrediction(w: nat)
      requires Valid() && Enabled(View(), WriteFlag(w))
      modifies this`writers, this`droppedUpdate
      ensures Valid() && View() == Do(mosh, old(View()), WriteFlag(w))
    {
      hide Inv, ScreensView, DisplayView, BooksView, ClockView;
      StepKeepsInv(mosh, View(), WriteFlag(w));
      droppedUpdate := true;
      writers := writers[w := Finishing(writers[w].began, writers[w].host)];
    }

    /** The end of Write's lock region. */
    method OpenEpoch(w: nat) returns (openedEpoch: nat)
      requires Valid() && Enabled(View(), WriteFinish(w))
      modifies this`writers, this`epoch, this`pendingEpoch, this`predictor, this`emulatorMutex, this`epochs
      modifies this`lastSent, this`calls
      ensures Valid() && View() == Do(mosh, old(View()), WriteFinish(w))
      ensures openedEpoch == epoch == old(epoch) + 1
    {
      hide Inv, ScreensView, DisplayView, UpdatesView, ClockView;
      ghost var s := View();
      assert Do(mosh, s, WriteFinish(w)) == FinishWrite(mosh, s, w);
      hide Do;
      StepKeepsInv(mosh, s, WriteFinish(w));
      openedEpoch := NumberEpoch(w);
    }

    method NumberEpoch(w: nat) returns (openedEpoch: nat)
      requires Enabled(View(), WriteFinish(w))
      modifies this`writers, this`epoch, this`pendingEpoch, this`predictor, this`emulatorMutex, this`epochs
      modifies this`lastSent, this`calls
      ensures var t := FinishWrite(mosh, old(View()), w);
              BooksView() == t.books && writers == t.writers && emulatorMutex == t.mutex
      ensures openedEpoch == epoch == old(epoch) + 1
    {
      openedEpoch := OpenBooks(writers[w].began);
      emulatorMutex := None;
      writers := writers[w := Submitting(writers[w].host, openedEpoch)];
    }

    method OpenBooks(began: int) returns (openedEpoch: nat)
      modifies this`epoch, this`pendingEpoch, this`predictor, this`epochs, this`lastSent, this`calls
      ensures openedEpoch == old(epoch) + 1
      ensures BooksView() == old(BooksView()).(epoch := openedEpoch, pendingEpoch := true, lastSent := openedEpoch,
                                               calls := old(calls) + [Sent(openedEpoch)],
                                               predictor := mosh.frameSent(old(predictor), openedEpoch),
                                               epochs := old(epochs)[openedEpoch := Unsent(began)])
    {
      epoch := epoch + 1;
      openedEpoch := epoch;
      pendingEpoch := true;
      predictor := mosh.frameSent(predictor, openedEpoch);
      lastSent, calls := openedEpoch, calls + [Sent(openedEpoch)];
      epochs := epochs[openedEpoch := Unsent(began)];
    }

    /** The write to the sink, and the start of the callback. */
    method HandOver(w: nat)
      requires Valid() && Enabled(View(), WriteSubmit(w))
      modifies this`writers, this`epochs, this`submitted
      ensures Valid() && View() == Do(mosh, old(View()), WriteSubmit(w))
    {
      hide Inv, ScreensView, DisplayView, UpdatesView, ClockView;
      StepKeepsInv(mosh, View(), WriteSubmit(w));
      PassOn(w);
    }

    method PassOn(w: nat)
      requires Enabled(View(), WriteSubmit(w))
      modifies this`writers, this`epochs, this`submitted
      ensures var t := Do(mosh, old(View()), WriteSubmit(w));
              BooksView() == t.books && writers == t.writers && submitted == t.submitted
    {
      var e := writers[w].epoch;
      submitted := submitted + [Submission(w, writers[w].host)];
      epochs := epochs[e := Epoch.Waiting(epochs[e].openedAt)];
      writers := writers[w := Outside];
    }

    // ----- CloseEpoch -----

    /** completeRemoteState is replaced by what is the newest snapshot. */
    method SetComplete(screen: S)
      requires snapshots != []
      modifies this`completeRemoteState, this`completeIndex
      ensures ScreensView() == old(ScreensView()).(complete := screen, completeIndex := |snapshots| - 1)
    {
      completeRemoteState := screen;
      completeIndex := |snapshots| - 1;
    }

    method CloseBooks(e: nat)
      requires e in epochs
      modifies this`predictor, this`pendingEpoch, this`pendingEpochStarted, this`epochs, this`lastAcked
      modifies this`calls
      ensures BooksView() == ClosedBooks(mosh, old(BooksView()), e, clock)
    {
      var openedAt := epochs[e].openedAt;
      var isPending := epoch > e;
      var latency := clock - openedAt;
      predictor := mosh.frameAcked(predictor, e);
      predictor := mosh.frameLateAcked(predictor, e);
      predictor := mosh.sendInterval(predictor, latency);
      lastAcked, calls := e, calls + [Acked(e), LateAcked(e), Interval(latency)];
      pendingEpoch := isPending;
      if !isPending {
        pendingEpochStarted := None;
      }
      epochs := epochs[e := Announcing(openedAt)];
    }

    method AckEpoch(e: nat)
      requires Valid() && Enabled(View(), Close(e))
      modifies this`predictor, this`completeRemoteState, this`pendingEpoch, this`pendingEpochStarted, this`epochs
      modifies this`lastAcked, this`completeIndex, this`calls
      ensures Valid() && View() == Do(mosh, old(View()), Close(e))
    {
      hide Inv, Do, InterposerProtocol.CloseEpoch, DisplayView, ClockView;
      ghost var s := View();
      CloseLeaves(mosh, s, e);
      StepKeepsInv(mosh, s, Close(e));
      CloseLocked(e);
    }

    method CloseLocked(e: nat)
      requires Enabled(View(), Close(e))
      modifies this`predictor, this`completeRemoteState, this`pendingEpoch, this`pendingEpochStarted, this`epochs
      modifies this`lastAcked, this`completeIndex, this`calls
      ensures var t := InterposerProtocol.CloseEpoch(mosh, old(View()), e);
              BooksView() == t.books && ScreensView() == t.screens && UpdatesView() == t.updates
    {
      hide ClosedBooks, DisplayView;
      CloseBooks(e);
      assert ScreensView() == old(ScreensView()) && UpdatesView() == old(UpdatesView());
      SetComplete(pendingRemoteState);
    }

    method NotifyClose(e: nat)
      requires Valid() && Enabled(View(), CloseNotify(e))
      modifies this`epochs, this`reader
      ensures Valid() && View() == Do(mosh, old(View()), CloseNotify(e))
    {
      hide Inv, ScreensView, DisplayView, ClockView;
      StepKeepsInv(mosh, View(), CloseNotify(e));
      var openedAt := epochs[e].openedAt;
      epochs := epochs[e := if reader.Parked? then Finished(openedAt) else Marking(openedAt)];
      HandToReader(false);
    }

    method FlagClose(e: nat)
      requires Valid() && Enabled(View(), CloseFlag(e))
      modifies this`epochs, this`droppedUpdate
      ensures Valid() && View() == Do(mosh, old(View()), CloseFlag(e))
    {
      hide Inv, ScreensView, DisplayView, ClockView;
      StepKeepsInv(mosh, View(), CloseFlag(e));
      droppedUpdate := true;
      epochs := epochs[e := Finished(epochs[e].openedAt)];
    }

    // ----- pullFromUpstream -----

    method ReadUpstream(chunk: seq<byte>, ghost reach: nat)
      requires Valid() && Enabled(View(), Pull(chunk, reach))
      modifies this`puller, this`arriving
      ensures Valid() && View() == Do(mosh, old(View()), Pull(chunk, reach))
    {
      hide Inv, DisplayView, BooksView, UpdatesView, ClockView;
      StepKeepsInv(mosh, View(), Pull(chunk, reach));
      if |chunk| > 0 {
        puller := Got(chunk);
        arriving := reach;
      } else {
        puller := Putting;
      }
    }

    method PerformChunk()
      requires Valid() && Enabled(View(), Perform)
      modifies this`emulator, this`pendingRemoteState, this`puller, this`events, this`snapshots
      ensures Valid() && View() == Do(mosh, old(View()), Perform)
    {
      hide Inv, DisplayView, BooksView, UpdatesView, ClockView;
      ghost var s := View();
      assert Do(mosh, s, Perform) == s.(screens := Performing(mosh, s.screens, s.puller.chunk), puller := Checking);
      hide Do;
      StepKeepsInv(mosh, s, Perform);
      PerformLocked();
    }

    method PerformLocked()
      requires Enabled(View(), Perform)
      modifies this`emulator, this`pendingRemoteState, this`puller, this`events, this`snapshots
      ensures var t := old(View()).(screens := Performing(mosh, old(ScreensView()), old(puller).chunk),
                                    puller := Checking);
              ScreensView() == t.screens && puller == t.puller
    {
      emulator := mosh.perform(emulator, puller.chunk);
      pendingRemoteState := mosh.screen(emulator);
      events := events + [Performed(puller.chunk)];
      snapshots := snapshots + [Snapshot(pendingRemoteState, |events|, arriving)];
      puller := Checking;
    }

    method CheckPending()
      requires Valid() && Enabled(View(), Check)
      modifies this`puller
      ensures Valid() && View() == Do(mosh, old(View()), Check)
    {
      hide Inv, ScreensView, DisplayView, UpdatesView, ClockView;
      StepKeepsInv(mosh, View(), Check);
      puller := if !pendingEpoch then Loading else Putting;
    }

    method LoadPending()
      requires Valid() && Enabled(View(), Load)
      modifies this`puller
      ensures Valid() && View() == Do(mosh, old(View()), Load)
    {
      hide Inv, DisplayView, BooksView, UpdatesView, ClockView;
      StepKeepsInv(mosh, View(), Load);
      puller := Storing(pendingRemoteState);
    }

    method StoreComplete()
      requires Valid() && Enabled(View(), Store)
      modifies this`puller, this`completeRemoteState, this`completeIndex
      ensures Valid() && View() == Do(mosh, old(View()), Store)
    {
      hide Inv, DisplayView, BooksView, ClockView;
      ghost var s := View();
      StepKeepsInv(mosh, s, Store);
      PublishScreen();
    }

    method PublishScreen()
      requires Enabled(View(), Store)
      modifies this`puller, this`completeRemoteState, this`completeIndex
      ensures ScreensView() == old(ScreensView()).(complete := old(puller).screen, completeIndex := |snapshots| - 1)
      ensures puller == Putting
    {
      SetComplete(puller.screen);
      puller := Putting;
    }

    method NotifyPulled()
      requires Valid() && Enabled(View(), PullNotify)
      modifies this`puller, this`reader
      ensures Valid() && View() == Do(mosh, old(View()), PullNotify)
    {
      hide Inv, ScreensView, DisplayView, BooksView, ClockView;
      StepKeepsInv(mosh, View(), PullNotify);
      puller := if reader.Parked? then Pulling else Dropping;
      HandToReader(false);
    }

    method FlagPulled()
      requires Valid() && Enabled(View(), PullFlag)
      modifies this`puller, this`droppedUpdate
      ensures Valid() && View() == Do(mosh, old(View()), PullFlag)
    {
      hide Inv, ScreensView, DisplayView, BooksView, ClockView;
      StepKeepsInv(mosh, View(), PullFlag);
      droppedUpdate := true;
      puller := Pulling;
    }

    // ----- Read -----

    /** Bytes for the caller's buffer, the rest for `pending`. */
    method Deal(p: array<byte>, bytes: seq<byte>) returns (n: nat)
      modifies p, this`pending, this`output
      ensures DisplayView() == Give(old(DisplayView()), p.Length, bytes)
      ensures n == Min(p.Length, |bytes|) && p[..n] == bytes[..n] && p[n..] == old(p[n..])
      ensures output == old(output) + bytes[..n]
      ensures pending == if n == |bytes| then old(pending)
                         else Some((if old(pending).Some? then old(pending).value else []) + bytes[n..])
    {
      n := CopyInto(p, 0, bytes);
      output := output + bytes[..n];
      if n < |bytes| {
        pending := Some((if pending.Some? then pending.value else []) + bytes[n..]);
      }
    }

    /** The head of Read: pending bytes first, then the opening bytes, else on towards the gate. */
    method BeginRead(p: array<byte>) returns (n: nat)
      requires Valid() && Enabled(View(), Step.Read(p.Length))
      modifies p, this`pending, this`output, this`isOpen, this`reader
      ensures n <= p.Length && output == old(output) + p[..n] && p[n..] == old(p[n..])
      ensures Valid() && View() == Do(mosh, old(View()), Step.Read(p.Length))
      ensures old(pending).Some? ==>
                var bytes := old(pending).value;
                && n == Min(p.Length, |bytes|) && p[..n] == bytes[..n] && isOpen == old(isOpen)
                && pending == (if bytes == [] && p.Length > 0 then None else Some(bytes[n..])) && reader == old(reader)
      ensures old(pending) == None && !old(isOpen) ==>
                && n == Min(p.Length, |mosh.open|) && p[..n] == mosh.open[..n] && isOpen && reader == old(reader)
                && pending == if n < |mosh.open| then Some(mosh.open[n..]) else None
      ensures old(pending) == None && old(isOpen) ==>
                && n == 0 && isOpen && pending == None
                && reader == if lastUpdated.Some? && clock - lastUpdated.value < coalesceInterval
                             then Reader.Sleeping(p.Length, clock, lastUpdated.value + coalesceInterval)
                             else AtGate(p.Length, clock)
    {
      hide Inv, Do, InterposerProtocol.BeginRead, ScreensView, BooksView, ClockView;
      ghost var s := View();
      ReadLeaves(mosh, s, p.Length);
      StepKeepsInv(mosh, s, Step.Read(p.Length));
      n := StartRead(p);
    }

    method StartRead(p: array<byte>) returns (n: nat)
      requires Enabled(View(), Step.Read(p.Length))
      modifies p, this`pending, this`output, this`isOpen, this`reader
      ensures var t := InterposerProtocol.BeginRead(mosh, old(View()), p.Length);
              DisplayView() == t.display && UpdatesView() == t.updates
      ensures n <= p.Length && output == old(output) + p[..n] && p[n..] == old(p[n..])
      ensures old(pending).Some? ==>
                var bytes := old(pending).value;
                && n == Min(p.Length, |bytes|) && p[..n] == bytes[..n] && isOpen == old(isOpen)
                && pending == (if bytes == [] && p.Length > 0 then None else Some(bytes[n..])) && reader == old(reader)
      ensures old(pending) == None && !old(isOpen) ==>
                && n == Min(p.Length, |mosh.open|) && p[..n] == mosh.open[..n] && isOpen && reader == old(reader)
                && pending == if n < |mosh.open| then Some(mosh.open[n..]) else None
      ensures old(pending) == None && old(isOpen) ==>
                && n == 0 && isOpen && pending == None
                && reader == if lastUpdated.Some? && clock - lastUpdated.value < coalesceInterval
                             then Reader.Sleeping(p.Length, clock, lastUpdated.value + coalesceInterval)
                             else AtGate(p.Length, clock)
    {
      if pending.Some? {
        n := ServePending(p);
      } else if !isOpen {
        n := ServeOpening(p);
      } else {
        n := 0;
        var now := clock;
        if lastUpdated.Some? && now - lastUpdated.value < coalesceInterval {
          reader := Reader.Sleeping(p.Length, now, lastUpdated.value + coalesceInterval);
        } else {
          reader := AtGate(p.Length, now);
        }
      }
    }

    /** Pending bytes, from the front; a read that finds none left takes `pending` away. */
    method ServePending(p: array<byte>) returns (n: nat)
      requires pending.Some?
      modifies p, this`pending, this`output
      ensures DisplayView() == Drain(old(DisplayView()), p.Length)
      ensures n <= p.Length && output == old(output) + p[..n] && p[n..] == old(p[n..])
      ensures var bytes := old(pending).value;
              && n == Min(p.Length, |bytes|) && p[..n] == bytes[..n]
              && pending == if bytes == [] && p.Length > 0 then None else Some(bytes[n..])
    {
      n := 0;
      var bytes := pending.value;
      if bytes == [] && p.Length > 0 {
        pending := None;
      } else {
        n := CopyInto(p, 0, bytes);
        output := output + bytes[..n];
        pending := Some(bytes[n..]);
      }
    }

    /** The opening bytes, once. */
    method ServeOpening(p: array<byte>) returns (n: nat)
      requires pending == None
      modifies p, this`pending, this`output, this`isOpen
      ensures DisplayView() == Give(old(DisplayView()).(isOpen := true), p.Length, mosh.open)
      ensures n <= p.Length && output == old(output) + p[..n] && p[n..] == old(p[n..])
      ensures n == Min(p.Length, |mosh.open|) && p[..n] == mosh.open[..n] && isOpen
      ensures pending == if n < |mosh.open| then Some(mosh.open[n..]) else None
    {
      isOpen := true;
      n := Deal(p, mosh.open);
      assert [] + mosh.open[n..] == mosh.open[n..];
    }

    method EndSleep()
      requires Valid() && Enabled(View(), WakeUp)
      modifies this`reader
      ensures Valid() && View() == Do(mosh, old(View()), WakeUp)
    {
      hide Inv, ScreensView, DisplayView, BooksView;
      StepKeepsInv(mosh, View(), WakeUp);
      reader := AtGate(reader.size, reader.began);
    }

    method PassGate()
      requires Valid() && Enabled(View(), Gate)
      modifies this`reader
      ensures Valid() && View() == Do(mosh, old(View()), Gate)
      ensures reader == if droppedUpdate then Clearing(old(reader).size, old(reader).began, false)
                        else Selecting(old(reader).size, old(reader).began)
      ensures old(Changed(View()) && !InFlight(View())) ==> reader.Clearing?
    {
      GateOpens(mosh, View());
      assert Changed(View()) && !InFlight(View()) ==> droppedUpdate;
      hide *;
      LookAtFlag();
    }

    method LookAtFlag()
      requires Valid() && Enabled(View(), Gate)
      modifies this`reader
      ensures Valid() && View() == Do(mosh, old(View()), Gate)
      ensures reader == if droppedUpdate then Clearing(old(reader).size, old(reader).began, false)
                        else Selecting(old(reader).size, old(reader).began)
    {
      hide Inv, ScreensView, DisplayView, BooksView, ClockView;
      StepKeepsInv(mosh, View(), Gate);
      reader := if !droppedUpdate then Selecting(reader.size, reader.began)
                else Clearing(reader.size, reader.began, false);
    }

    method EnterSelect()
      requires Valid() && Enabled(View(), Step.Park)
      modifies this`reader
      ensures Valid() && View() == Do(mosh, old(View()), Step.Park)
    {
      hide Inv, ScreensView, DisplayView, BooksView, ClockView;
      StepKeepsInv(mosh, View(), Step.Park);
      reader := Parked(reader.size, reader.began);
    }

    method ClearFlag()
      requires Valid() && Enabled(View(), Clear)
      modifies this`reader, this`droppedUpdate
      ensures Valid() && View() == Do(mosh, old(View()), Clear)
    {
      hide Inv, ScreensView, DisplayView, BooksView, ClockView;
      StepKeepsInv(mosh, View(), Clear);
      droppedUpdate := false;
      reader := Reader.Copying(reader.size, reader.began, reader.prediction);
    }

    /** The complete screen with predictions, and what takes the client from the old frame to it. */
    method Overlay() returns (emission: seq<byte>)
      modifies this`predictor, this`initialized, this`localState, this`calls
      ensures BooksView() == old(BooksView()).(predictor := mosh.cull(old(predictor), completeRemoteState),
                                               calls := old(calls) + [Culled(completeRemoteState)])
      ensures DisplayView() == old(DisplayView()).(localState := mosh.overlay(predictor, completeRemoteState),
                                                   initialized := true)
      ensures emission == mosh.newFrame(old(initialized), old(localState), localState)
    {
      var remoteFramebufferCopy := completeRemoteState;
      predictor := mosh.cull(predictor, remoteFramebufferCopy);
      calls := calls + [Culled(remoteFramebufferCopy)];
      remoteFramebufferCopy := mosh.overlay(predictor, remoteFramebufferCopy);
      emission := mosh.newFrame(initialized, localState, remoteFramebufferCopy);
      initialized := true;
      localState := remoteFramebufferCopy;
    }

    /** The lock region of Read. */
    method ComposeFrame()
      requires Valid() && Enabled(View(), MakeFrame)
      modifies this`reader, this`predictor, this`initialized, this`localState, this`frames
      modifies this`calls
      ensures Valid() && View() == Do(mosh, old(View()), MakeFrame)
    {
      hide Inv, Do, NewFrame, ScreensView;
      ghost var s := View();
      FrameLeaves(mosh, s);
      StepKeepsInv(mosh, s, MakeFrame);
      ComposeLocked();
    }

    method ComposeLocked()
      requires Enabled(View(), MakeFrame)
      modifies this`reader, this`predictor, this`initialized, this`localState, this`frames
      modifies this`calls
      ensures var t := InterposerProtocol.NewFrame(mosh, old(View()));
              && BooksView() == t.books && DisplayView() == t.display
              && UpdatesView() == t.updates && ClockView() == t.clock
    {
      hide ClosedEpochs;
      var emission := Overlay();
      NoteFrame(emission);
    }

    method NoteFrame(emission: seq<byte>)
      requires reader.Copying?
      modifies this`reader, this`frames
      ensures var r := old(reader);
              UpdatesView() == Updates(droppedUpdate, Delivering(r.size, r.began, r.prediction, emission))
      ensures ClockView() == old(ClockView()).(frames := old(frames)
                + [Frame(old(reader).began, clock, old(reader).prediction, completeRemoteState, completeIndex,
                         lastAcked, ClosedEpochs(epochs), localState)])
    {
      frames := frames + [Frame(reader.began, clock, reader.prediction, completeRemoteState, completeIndex,
                                lastAcked, ClosedEpochs(epochs), localState)];
      reader := Delivering(reader.size, reader.began, reader.prediction, emission);
    }

    method DeliverFrame(p: array<byte>) returns (n: nat)
      requires Valid() && Enabled(View(), Deliver) && reader.Delivering? && p.Length == reader.size
      modifies p, this`pending, this`output, this`reader, this`lastUpdated
      ensures n == Min(p.Length, |old(reader).emission|) && p[..n] == old(reader).emission[..n]
      ensures p[n..] == old(p[n..])
      ensures Valid() && View() == Do(mosh, old(View()), Deliver)
    {
      hide Inv, Do, InterposerProtocol.DeliverFrame, ScreensView, BooksView;
      ghost var s := View();
      DeliverLeaves(mosh, s);
      StepKeepsInv(mosh, s, Deliver);
      n := DealFrame(p);
    }

    method DealFrame(p: array<byte>) returns (n: nat)
      requires Enabled(View(), Deliver) && p.Length == reader.size
      modifies p, this`pending, this`output, this`reader, this`lastUpdated
      ensures var t := InterposerProtocol.DeliverFrame(old(View()));
              DisplayView() == t.display && UpdatesView() == t.updates && ClockView() == t.clock
      ensures n == Min(p.Length, |old(reader).emission|) && p[..n] == old(reader).emission[..n]
      ensures p[n..] == old(p[n..])
    {
      n := Deal(p, reader.emission);
      if !reader.prediction {
        lastUpdated := Some(reader.began);
      }
      reader := Away;
    }

    method Elapse(d: nat)
      requires Enabled(View(), Tick(d)) && Valid()
      modifies this`clock
      ensures View() == Do(mosh, old(View()), Tick(d)) && Valid()
    {
      hide Inv, ScreensView, DisplayView, BooksView, UpdatesView;
      StepKeepsInv(mosh, View(), Tick(d));
      clock := clock + d;
    }

    // ----- Read, with nothing in between -----

    /** Time passes until the coalesce interval is over. */
    method SleepOut()
      requires Valid() && reader.Sleeping?
      modifies this`clock, this`reader
      ensures Valid() && reader == AtGate(old(reader).size, old(reader).began)
      ensures clock == Max(old(clock), old(reader).until)
    {
      hide Inv;
      if clock < reader.until {
        Elapse(reader.until - clock);
      }
      EndSleep();
    }

    /** The way to the gate, with nothing waiting and the opening bytes sent. */
    method Approach(p: array<byte>)
      requires Valid() && reader.Away? && pending == None && isOpen
      modifies p, this`pending, this`output, this`isOpen, this`reader, this`clock
      ensures Valid() && reader == AtGate(p.Length, old(clock)) && DisplayView() == old(DisplayView())
      ensures clock == if lastUpdated.Some? then Max(old(clock), lastUpdated.value + coalesceInterval) else old(clock)
      ensures Changed(View()) == old(Changed(View())) && InFlight(View()) == old(InFlight(View()))
    {
      hide Inv, Changed, InFlight, ScreensView, BooksView;
      var _ := BeginRead(p);
      assert DisplayView() == old(View()).display;
      if reader.Sleeping? {
        SleepOut();
      }
      SameChange(old(View()), View());
    }

    /** Through the gate with something to show. */
    method PassThrough()
      requires Valid() && reader.AtGate?
      requires droppedUpdate || (Changed(View()) && !InFlight(View()))
      modifies this`reader, this`droppedUpdate
      ensures Valid() && !droppedUpdate && reader == Reader.Copying(old(reader).size, old(reader).began, false)
    {
      hide Inv, Changed, InFlight, ScreensView, DisplayView, BooksView, ClockView;
      PassGate();
      ClearFlag();
    }

    /** From the gate with something to show, to the frame. */
    method ShowNewest()
      requires Valid() && reader.AtGate? && emulatorMutex == None
      requires droppedUpdate || (Changed(View()) && !InFlight(View()))
      modifies this`reader, this`droppedUpdate, this`predictor, this`initialized, this`localState
      modifies this`frames, this`calls
      ensures Valid() && !droppedUpdate && initialized
      ensures predictor == mosh.cull(old(predictor), completeRemoteState)
      ensures localState == mosh.overlay(predictor, completeRemoteState)
      ensures reader == Delivering(old(reader).size, old(reader).began, false,
                                   mosh.newFrame(old(initialized), old(localState), localState))
    {
      hide *;
      PassThrough();
      MakeNewest();
    }

    method MakeNewest()
      requires Valid() && reader.Copying? && emulatorMutex == None
      modifies this`reader, this`predictor, this`initialized, this`localState, this`frames, this`calls
      ensures Valid() && initialized && predictor == mosh.cull(old(predictor), completeRemoteState)
      ensures localState == mosh.overlay(predictor, completeRemoteState)
      ensures reader == Delivering(old(reader).size, old(reader).began, old(reader).prediction,
                                   mosh.newFrame(old(initialized), old(localState), localState))
    {
      hide Inv, ClockView, ClosedEpochs;
      ComposeFrame();
    }

    /** What fits goes to the client, the rest waits. */
    method HandToClient(p: array<byte>) returns (n: nat)
      requires Valid() && reader.Delivering? && p.Length == reader.size && pending == None && !reader.prediction
      modifies p, this`pending, this`output, this`reader, this`lastUpdated
      ensures Valid() && reader.Away? && lastUpdated == Some(old(reader).began)
      ensures var emission := old(reader).emission;
              && n == Min(p.Length, |emission|) && p[..n] == emission[..n] && output == old(output) + emission[..n]
              && pending == if n < |emission| then Some(emission[n..]) else None
    {
      hide Inv;
      ghost var s := View();
      n := DeliverFrame(p);
      assert DisplayView() == Give(s.display, s.updates.reader.size, s.updates.reader.emission);
      assert [] + s.updates.reader.emission[n..] == s.updates.reader.emission[n..];
    }

    /** From the gate with something to show, to the client. */
    method EmitNewest(p: array<byte>) returns (n: nat)
      requires Valid() && reader.AtGate? && p.Length == reader.size && pending == None && emulatorMutex == None
      requires droppedUpdate || (Changed(View()) && !InFlight(View()))
      modifies p, this`reader, this`droppedUpdate, this`predictor, this`initialized, this`localState
      modifies this`frames, this`calls, this`pending, this`output, this`lastUpdated
      ensures Valid() && reader.Away? && !droppedUpdate && initialized && lastUpdated == Some(old(reader).began)
      ensures predictor == mosh.cull(old(predictor), completeRemoteState)
      ensures localState == mosh.overlay(predictor, completeRemoteState)
      ensures var emission := mosh.newFrame(old(initialized), old(localState), localState);
              && n == Min(p.Length, |emission|) && p[..n] == emission[..n] && output == old(output) + emission[..n]
              && pending == if n < |emission| then Some(emission[n..]) else None
    {
      hide *;
      ShowNewest();
      n := HandToClient(p);
    }

    /**
     * A whole Read with nothing waiting and something to show: it sleeps until the coalesce interval is over, and
     * gives the client the difference to the newest screen with predictions, or as much of it as fits.
     */
    method Read(p: array<byte>) returns (n: nat)
      requires Valid() && reader.Away? && pending == None && isOpen && emulatorMutex == None
      requires droppedUpdate || (Changed(View()) && !InFlight(View()))
      modifies p, this`reader, this`droppedUpdate, this`predictor, this`initialized, this`localState
      modifies this`frames, this`calls, this`clock, this`pending, this`output, this`lastUpdated, this`isOpen
      ensures Valid() && reader.Away? && !droppedUpdate && initialized && lastUpdated == Some(old(clock))
      ensures clock == if old(lastUpdated).Some? then Max(old(clock), old(lastUpdated).value + coalesceInterval)
                       else old(clock)
      ensures predictor == mosh.cull(old(predictor), completeRemoteState)
      ensures localState == mosh.overlay(predictor, completeRemoteState)
      ensures var emission := mosh.newFrame(old(initialized), old(localState), localState);
              && n == Min(p.Length, |emission|) && p[..n] == emission[..n] && output == old(output) + emission[..n]
              && pending == if n < |emission| then Some(emission[n..]) else None
    {
      hide Inv, Changed, InFlight, View, ScreensView, BooksView, UpdatesView, ClockView;
      Approach(p);
      n := EmitNewest(p);
    }

    // ----- other whole calls, with nothing in between -----

    /** The reader is woken if it is in its select, otherwise the flag is set for it. */
    method TellReader(w: nat)
      requires Valid() && w in writers && writers[w].Notifying?
      modifies this`writers, this`reader, this`droppedUpdate
      ensures Valid() && writers == old(writers)[w := Finishing(old(writers[w]).began, old(writers[w]).host)]
      ensures if old(reader).Parked? then reader == Clearing(old(reader).size, old(reader).began, true)
              else reader == old(reader)
      ensures droppedUpdate == (old(droppedUpdate) || !old(reader).Parked?)
    {
      NotifyPrediction(w);
      if writers[w].Flagging? {
        FlagPrediction(w);
      }
    }

    /** The input is typed, and the reader told of it. */
    method TakeInput(w: nat, p: seq<byte>)
      requires Valid() && w in writers && writers[w].Outside? && emulatorMutex == None
      modifies this`emulator, this`predictor, this`initialized, this`pendingEpochStarted, this`emulatorMutex
      modifies this`writers, this`events, this`calls, this`reader, this`droppedUpdate
      ensures Valid() && emulatorMutex == Some(w)
      ensures var told := if old(pendingEpochStarted) == None then old(predictor)
                          else mosh.sendInterval(old(predictor), clock - old(pendingEpochStarted).value);
              emulator == Fed(mosh, old(emulator), p) && predictor == Guessed(mosh, told, localState, p)
      ensures writers == old(writers)[w := Finishing(clock, Flatten(Replies(mosh, old(emulator), p)))]
      ensures initialized == (old(initialized) && 0x0c !in p)
      ensures pendingEpochStarted == if old(pendingEpochStarted) == None then Some(clock) else old(pendingEpochStarted)
      ensures if p != [] && old(reader).Parked?
              then reader == Clearing(old(reader).size, old(reader).began, true)
              else reader == old(reader)
      ensures droppedUpdate == (old(droppedUpdate) || (p != [] && !old(reader).Parked?))
    {
      hide *;
      TypeAll(w, p);
      if p != [] {
        TellReader(w);
      }
    }

    method TypeAll(w: nat, p: seq<byte>)
      requires Valid() && w in writers && writers[w].Outside? && emulatorMutex == None
      modifies this`emulator, this`predictor, this`initialized, this`pendingEpochStarted, this`emulatorMutex
      modifies this`writers, this`events, this`calls
      ensures Valid() && emulatorMutex == Some(w)
      ensures var told := if old(pendingEpochStarted) == None then old(predictor)
                          else mosh.sendInterval(old(predictor), clock - old(pendingEpochStarted).value);
              emulator == Fed(mosh, old(emulator), p) && predictor == Guessed(mosh, told, localState, p)
      ensures var host := Flatten(Replies(mosh, old(emulator), p));
              writers == old(writers)[w := if p == [] then Finishing(clock, host) else Writer.Notifying(clock, host)]
      ensures initialized == (old(initialized) && 0x0c !in p)
      ensures pendingEpochStarted == if old(pendingEpochStarted) == None then Some(clock) else old(pendingEpochStarted)
    {
      hide Inv, Do, UpdatesView;
      ghost var s := View();
      WriteParts(mosh, s, w, p);
      BeginWrite(w, p);
      ghost var t := View();
      assert emulator == t.screens.emulator && predictor == t.books.predictor && writers == t.writers;
      assert initialized == t.display.initialized && emulatorMutex == t.mutex;
      assert pendingEpochStarted == t.books.pendingStarted;
    }

    /** The next epoch is opened, the replies are handed over, and the callback starts. */
    method PassInputOn(w: nat) returns (openedEpoch: nat)
      requires Valid() && w in writers && writers[w].Finishing?
      modifies this`writers, this`epoch, this`pendingEpoch, this`predictor, this`emulatorMutex, this`epochs
      modifies this`lastSent, this`calls, this`submitted
      ensures Valid() && openedEpoch == epoch == old(epoch) + 1 && pendingEpoch && emulatorMutex == None
      ensures predictor == mosh.frameSent(old(predictor), openedEpoch)
      ensures submitted == old(submitted) + [Submission(w, old(writers[w]).host)]
      ensures writers == old(writers)[w := Outside]
      ensures epochs == old(epochs)[openedEpoch := Epoch.Waiting(old(writers[w]).began)]
    {
      hide Inv, ScreensView, DisplayView, UpdatesView;
      openedEpoch := OpenEpoch(w);
      HandOver(w);
    }

    /** A whole Write opens the next epoch, hands the replies to the sink, and tells the reader of any input. */
    method Write(w: nat, p: seq<byte>) returns (openedEpoch: nat)
      requires Valid() && w in writers && writers[w].Outside? && emulatorMutex == None
      modifies this`emulator, this`predictor, this`initialized, this`pendingEpochStarted, this`emulatorMutex
      modifies this`writers, this`events, this`calls, this`reader, this`droppedUpdate
      modifies this`epoch, this`pendingEpoch, this`epochs, this`lastSent, this`submitted
      ensures Valid() && openedEpoch == epoch == old(epoch) + 1 && pendingEpoch && emulatorMutex == None
      ensures var told := if old(pendingEpochStarted) == None then old(predictor)
                          else mosh.sendInterval(old(predictor), clock - old(pendingEpochStarted).value);
              && emulator == Fed(mosh, old(emulator), p)
              && predictor == mosh.frameSent(Guessed(mosh, told, localState, p), openedEpoch)
      ensures submitted == old(submitted) + [Submission(w, Flatten(Replies(mosh, old(emulator), p)))]
      ensures writers == old(writers) && epochs == old(epochs)[openedEpoch := Epoch.Waiting(clock)]
      ensures initialized == (old(initialized) && 0x0c !in p)
      ensures pendingEpochStarted == if old(pendingEpochStarted) == None then Some(clock) else old(pendingEpochStarted)
      ensures if p != [] && old(reader).Parked?
              then reader == Clearing(old(reader).size, old(reader).began, true)
              else reader == old(reader)
      ensures droppedUpdate == (old(droppedUpdate) || (p != [] && !old(reader).Parked?))
    {
      hide *;
      TakeInput(w, p);
      openedEpoch := PassInputOn(w);
    }

    /** A whole CloseEpoch shows what is pending, acknowledges the epoch, and tells the reader. */
    method CloseEpoch(e: nat)
      requires Valid() && e in epochs && epochs[e].Waiting? && emulatorMutex == None
      modifies this`predictor, this`completeRemoteState, this`pendingEpoch, this`pendingEpochStarted, this`epochs
      modifies this`lastAcked, this`completeIndex, this`calls, this`reader, this`droppedUpdate
      ensures Valid() && completeRemoteState == pendingRemoteState
      ensures pendingEpoch == (epoch > e)
      ensures pendingEpochStarted == if pendingEpoch then old(pendingEpochStarted) else None
      ensures epochs == old(epochs)[e := Epoch.Finished(old(epochs[e]).openedAt)]
      ensures predictor == mosh.sendInterval(mosh.frameLateAcked(mosh.frameAcked(old(predictor), e), e),
                                             clock - old(epochs[e]).openedAt)
      ensures if old(reader).Parked? then reader == Clearing(old(reader).size, old(reader).began, false)
              else reader == old(reader)
      ensures droppedUpdate == (old(droppedUpdate) || !old(reader).Parked?)
    {
      hide *;
      Retire(e);
      TellClosed(e);
    }

    method Retire(e: nat)
      requires Valid() && e in epochs && epochs[e].Waiting? && emulatorMutex == None
      modifies this`predictor, this`completeRemoteState, this`pendingEpoch, this`pendingEpochStarted, this`epochs
      modifies this`lastAcked, this`completeIndex, this`calls
      ensures Valid() && completeRemoteState == pendingRemoteState
      ensures pendingEpoch == (epoch > e)
      ensures pendingEpochStarted == if pendingEpoch then old(pendingEpochStarted) else None
      ensures epochs == old(epochs)[e := Announcing(old(epochs[e]).openedAt)]
      ensures predictor == mosh.sendInterval(mosh.frameLateAcked(mosh.frameAcked(old(predictor), e), e),
                                             clock - old(epochs[e]).openedAt)
    {
      assert snapshots != [];
      hide Inv;
      ghost var s := View();
      AckEpoch(e);
      assert BooksView() == ClosedBooks(mosh, s.books, e, s.clock.now);
    }

    method TellClosed(e: nat)
      requires Valid() && e in epochs && epochs[e].Announcing?
      modifies this`epochs, this`reader, this`droppedUpdate
      ensures Valid() && epochs == old(epochs)[e := Epoch.Finished(old(epochs[e]).openedAt)]
      ensures if old(reader).Parked? then reader == Clearing(old(reader).size, old(reader).began, false)
              else reader == old(reader)
      ensures droppedUpdate == (old(droppedUpdate) || !old(reader).Parked?)
    {
      NotifyClose(e);
      if epochs[e].Marking? {
        FlagClose(e);
      }
    }

    /** A whole round of the puller: the chunk is performed, and shown unless an epoch is pending. */
    method PullOnce(chunk: seq<byte>, ghost reach: nat)
      requires Valid() && puller.Pulling? && emulatorMutex == None
      requires snapshots != [] && snapshots[|snapshots| - 1].reach <= reach
      modifies this`puller, this`arriving, this`emulator, this`pendingRemoteState, this`events, this`snapshots
      modifies this`completeRemoteState, this`completeIndex, this`reader, this`droppedUpdate
      ensures Valid() && puller.Pulling?
      ensures if old(reader).Parked? then reader == Clearing(old(reader).size, old(reader).began, false)
              else reader == old(reader)
      ensures droppedUpdate == (old(droppedUpdate) || !old(reader).Parked?)
      ensures chunk == [] ==> ScreensView() == old(ScreensView())
      ensures chunk != [] ==>
                && emulator == mosh.perform(old(emulator), chunk) && pendingRemoteState == mosh.screen(emulator)
                && completeRemoteState == (if pendingEpoch then old(completeRemoteState) else pendingRemoteState)
                && snapshots == old(snapshots) + [Snapshot(pendingRemoteState, |events|, reach)]
    {
      hide *;
      Fetch(chunk, reach);
      if chunk != [] {
        ShowChunk(chunk);
      }
      TellPulled();
    }

    method Fetch(chunk: seq<byte>, ghost reach: nat)
      requires Valid() && puller.Pulling? && snapshots != [] && snapshots[|snapshots| - 1].reach <= reach
      modifies this`puller, this`arriving
      ensures Valid() && puller == (if chunk == [] then Putting else Got(chunk))
      ensures arriving == if chunk == [] then old(arriving) else reach
    {
      hide Inv;
      ReadUpstream(chunk, reach);
    }

    method ShowChunk(chunk: seq<byte>)
      requires Valid() && puller == Got(chunk) && emulatorMutex == None
      modifies this`puller, this`emulator, this`pendingRemoteState, this`events, this`snapshots
      modifies this`completeRemoteState, this`completeIndex
      ensures Valid() && puller.Putting?
      ensures emulator == mosh.perform(old(emulator), chunk) && pendingRemoteState == mosh.screen(emulator)
      ensures completeRemoteState == if pendingEpoch then old(completeRemoteState) else pendingRemoteState
      ensures snapshots == old(snapshots) + [Snapshot(pendingRemoteState, |events|, arriving)]
    {
      hide *;
      Record(chunk);
      ShowUnlessPending();
    }

    method Record(chunk: seq<byte>)
      requires Valid() && puller == Got(chunk) && emulatorMutex == None
      modifies this`puller, this`emulator, this`pendingRemoteState, this`events, this`snapshots
      ensures Valid() && puller.Checking?
      ensures emulator == mosh.perform(old(emulator), chunk) && pendingRemoteState == mosh.screen(emulator)
      ensures snapshots == old(snapshots) + [Snapshot(pendingRemoteState, |events|, arriving)]
    {
      hide Inv;
      PerformChunk();
    }

    method ShowUnlessPending()
      requires Valid() && puller.Checking?
      modifies this`puller, this`completeRemoteState, this`completeIndex
      ensures Valid() && puller.Putting?
      ensures completeRemoteState == if pendingEpoch then old(completeRemoteState) else pendingRemoteState
    {
      hide *;
      DecideToShow();
      if puller.Loading? {
        ShowPending();
      }
    }

    method DecideToShow()
      requires Valid() && puller.Checking?
      modifies this`puller
      ensures Valid() && puller == if pendingEpoch then Putting else Loading
    {
      hide Inv, ScreensView, DisplayView, UpdatesView, ClockView;
      CheckPending();
    }

    method ShowPending()
      requires Valid() && puller.Loading?
      modifies this`puller, this`completeRemoteState, this`completeIndex
      ensures Valid() && puller.Putting? && completeRemoteState == pendingRemoteState
    {
      assert snapshots != [];
      hide Inv, DisplayView, BooksView, ClockView;
      LoadPending();
      StoreComplete();
    }

    method TellPulled()
      requires Valid() && puller.Putting?
      modifies this`puller, this`reader, this`droppedUpdate
      ensures Valid() && puller.Pulling?
      ensures if old(reader).Parked? then reader == Clearing(old(reader).size, old(reader).began, false)
              else reader == old(reader)
      ensures droppedUpdate == (old(droppedUpdate) || !old(reader).Parked?)
    {
      hide Inv, ScreensView, DisplayView, BooksView, ClockView;
      NotifyPulled();
      if puller.Dropping? {
        FlagPulled();
      }
    }
  }
}
