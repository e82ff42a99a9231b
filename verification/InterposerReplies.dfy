/** What goes to the host: of each writer, call by call, what the emulator replies to the bytes written. */
module InterposerReplies {
  import opened Basics
  import opened InterposerProtocol
  import opened InterposerScreens
  import opened InterposerTrace

  // ----- the byte loop of Write -----

  /** The emulator after user bytes. */
  ghost function Fed<E, S, P>(m: Mosh<E, S, P>, emulator: E, p: seq<byte>): E {
    if p == [] then emulator else m.act(Fed(m, emulator, p[..|p| - 1]), p[|p| - 1])
  }

  /** The prediction engine after them, each with the screen the client has. */
  ghost function Guessed<E, S, P>(m: Mosh<E, S, P>, predictor: P, local: S, p: seq<byte>): P {
    if p == [] then predictor else m.newUserByte(Guessed(m, predictor, local, p[..|p| - 1]), p[|p| - 1], local)
  }

  /** What an emulator replies to each of the bytes. */
  ghost function Replies<E, S, P>(m: Mosh<E, S, P>, emulator: E, p: seq<byte>): seq<seq<byte>> {
    seq(|p|, i requires 0 <= i < |p| => m.reply(Fed(m, emulator, p[..i]), p[i]))
  }

  lemma RepliesSnoc<E, S, P>(m: Mosh<E, S, P>, emulator: E, p: seq<byte>, b: byte)
    ensures Replies(m, emulator, p + [b]) == Replies(m, emulator, p) + [m.reply(Fed(m, emulator, p), b)]
  {
    var q := p + [b];
    assert q[..|p|] == p;
    forall i | 0 <= i < |p| ensures Replies(m, emulator, q)[i] == Replies(m, emulator, p)[i] {
      assert q[..i] == p[..i];
    }
  }

  /** The byte loop feeds emulator and engine in order, and collects the replies. */
  lemma {:induction false} TypeFeeds<E, S, P>(m: Mosh<E, S, P>, emulator: E, predictor: P, local: S, p: seq<byte>)
    ensures Type(m, emulator, predictor, local, p)
         == Typed(Fed(m, emulator, p), Guessed(m, predictor, local, p), Flatten(Replies(m, emulator, p)))
    decreases |p|
  {
    if p != [] {
      var front, b := p[..|p| - 1], p[|p| - 1];
      TypeFeeds(m, emulator, predictor, local, front);
      RepliesSnoc(m, emulator, front, b);
      FlattenSnoc(Replies(m, emulator, front), m.reply(Fed(m, emulator, front), b));
      assert p == front + [b];
    }
  }

  // ----- over runs -----

  /** What one writer submitted, call by call. */
  ghost function By(submitted: seq<Submission>, w: nat): seq<seq<byte>> {
    if submitted == [] then []
    else
      var last := submitted[|submitted| - 1];
      By(submitted[..|submitted| - 1], w) + if last.writer == w then [last.host] else []
  }

  lemma BySnoc(submitted: seq<Submission>, last: Submission, w: nat)
    ensures By(submitted + [last], w) == By(submitted, w) + if last.writer == w then [last.host] else []
  {
    assert (submitted + [last])[..|submitted|] == submitted;
  }

  /** What the call in progress has for the host. */
  ghost function Held(writers: map<nat, Writer>, w: nat): seq<seq<byte>> {
    if w in writers && !writers[w].Outside? then [writers[w].host] else []
  }

  ghost function ForHost<E, S, P>(s: State<E, S, P>, w: nat): seq<seq<byte>> {
    By(s.submitted, w) + Held(s.writers, w)
  }

  /**
   * What the emulator, after all that was typed and performed before, replies to the bytes of each call of Write of
   * one writer; told from the steps alone.
   */
  ghost function Answers<E, S, P>(m: Mosh<E, S, P>, o: Onlooker, steps: seq<Step>, w: nat): seq<seq<byte>>
    decreases steps
  {
    if steps == [] then []
    else Answer(m, o.feeding.events, steps[0], w) + Answers(m, Look(o, steps[0]), steps[1..], w)
  }

  ghost function Answer<E, S, P>(m: Mosh<E, S, P>, events: seq<Event>, step: Step, w: nat): seq<seq<byte>> {
    match step
    case Write(v, p) => if v == w then [Flatten(Replies(m, Emulate(m, events), p))] else []
    case _ => []
  }

  /** A step of a call of Write. */
  ghost predicate OfWriter(step: Step) {
    step.Write? || step.WriteNotify? || step.WriteFlag? || step.WriteFinish? || step.WriteSubmit?
  }

  lemma WritersStay<E, S, P>(m: Mosh<E, S, P>, s: State<E, S, P>, step: Step)
    requires Enabled(s, step) && !OfWriter(step)
    ensures Do(m, s, step).writers == s.writers && Do(m, s, step).submitted == s.submitted
  {
  }

  lemma WriteAnswers<E, S, P>(m: Mosh<E, S, P>, s: State<E, S, P>, v: nat, p: seq<byte>, w: nat)
    requires Enabled(s, Write(v, p)) && Emulated(m, s.screens)
    ensures ForHost(Do(m, s, Write(v, p)), w) == ForHost(s, w) + Answer(m, s.screens.events, Write(v, p), w)
  {
    TypeFeeds(m, s.screens.emulator, Told(m, s.books, s.clock.now), s.display.localState, p);
  }

  lemma SubmitAnswers<E, S, P>(m: Mosh<E, S, P>, s: State<E, S, P>, v: nat, w: nat)
    requires Enabled(s, WriteSubmit(v))
    ensures ForHost(Do(m, s, WriteSubmit(v)), w) == ForHost(s, w)
  {
    BySnoc(s.submitted, Submission(v, s.writers[v].host), w);
  }

  lemma OthersAnswer<E, S, P>(m: Mosh<E, S, P>, s: State<E, S, P>, step: Step, w: nat)
    requires Enabled(s, step) && !step.Write? && !step.WriteSubmit?
    ensures ForHost(Do(m, s, step), w) == ForHost(s, w)
  {
    if !OfWriter(step) {
      WritersStay(m, s, step);
      hide Do, Enabled;
    }
  }

  lemma StepAnswers<E, S, P>(m: Mosh<E, S, P>, s: State<E, S, P>, step: Step, w: nat)
    requires Enabled(s, step) && Emulated(m, s.screens)
    ensures ForHost(Do(m, s, step), w) == ForHost(s, w) + Answer(m, s.screens.events, step, w)
  {
    hide Do, Enabled, ForHost;
    match step
    case Write(v, p) => WriteAnswers(m, s, v, p, w);
    case WriteSubmit(v) => SubmitAnswers(m, s, v, w);
    case _ => OthersAnswer(m, s, step, w);
  }

  lemma FollowedStepAnswers<E, S, P>(m: Mosh<E, S, P>, s: State<E, S, P>, step: Step, o: Onlooker, w: nat)
    requires Followed(m, s, o) && Enabled(s, step)
    ensures ForHost(Do(m, s, step), w) == ForHost(s, w) + Answer(m, o.feeding.events, step, w)
  {
    assert s.screens.events == o.feeding.events;
    hide Do, Enabled, ForHost, Answer, Emulated;
    StepAnswers(m, s, step, w);
  }

  lemma Regroup(a: seq<seq<byte>>, b: seq<seq<byte>>, c: seq<seq<byte>>)
    ensures (a + b) + c == a + (b + c)
  {
  }

  lemma {:induction false} RunAnswers<E, S, P>(m: Mosh<E, S, P>, s: State<E, S, P>, o: Onlooker, steps: seq<Step>,
                                               w: nat)
    requires Followed(m, s, o) && Run(m, s, steps)
    ensures ForHost(After(m, s, steps), w) == ForHost(s, w) + Answers(m, o, steps, w)
    decreases steps
  {
    hide Followed, Do, Enabled, Look, ForHost, Answer;
    if steps != [] {
      var first, o' := Answer(m, o.feeding.events, steps[0], w), Look(o, steps[0]);
      FollowedStepAnswers(m, s, steps[0], o, w);
      StepKeepsFollowed(m, s, steps[0], o);
      RunAnswers(m, Do(m, s, steps[0]), o', steps[1..], w);
      Regroup(ForHost(s, w), first, Answers(m, o', steps[1..], w));
    }
  }

  /**
   * In every run, what a writer has submitted to the sink, followed by what its call in progress has for it, is the
   * emulator's replies to the bytes of its calls of Write: all of them, in order, and nothing else.
   */
  lemma SubmittedAreReplies<E, S, P>(m: Mosh<E, S, P>, interval: int, ids: set<nat>, now: int, steps: seq<Step>, w: nat)
    requires Run(m, Init(m, interval, ids, now), steps)
    ensures var t := After(m, Init(m, interval, ids, now), steps);
            By(t.submitted, w) + Held(t.writers, w) == Answers(m, Start(now), steps, w)
  {
    assert ForHost(Init(m, interval, ids, now), w) == [];
    StartFollowed(m, interval, ids, now);
    hide Followed, Run, After, Init;
    RunAnswers(m, Init(m, interval, ids, now), Start(now), steps, w);
  }
}
