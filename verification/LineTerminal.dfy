/** A small terminal, one line that grows and can be cleared, that meets the laws of InterposerClient. */
module LineTerminal {
  import opened Basics
  import opened InterposerProtocol
  import opened InterposerClient

  const CLEAR: byte := 255

  newtype glyph = x: int | 0 <= x < 255

  type Line = seq<glyph>

  function Feed(line: Line, b: byte): Line {
    if b == CLEAR then [] else line + [b as int as glyph]
  }

  function Patch(line: Line, bytes: seq<byte>): Line {
    if bytes == [] then line else Feed(Patch(line, bytes[..|bytes| - 1]), bytes[|bytes| - 1])
  }

  function Shows(line: Line, s: Line): bool {
    line == s
  }

  function Glyphs(line: Line): seq<byte> {
    if line == [] then [] else Glyphs(line[..|line| - 1]) + [line[|line| - 1] as int as byte]
  }

  /**
   * Write what is new if the old line is a beginning of the new one; otherwise, or on an uninitialised display, clear
   * first.
   */
  function NewFrame(initialized: bool, before: Line, after: Line): seq<byte> {
    if initialized && before <= after then Glyphs(after[|before|..]) else [CLEAR] + Glyphs(after)
  }

  // ----- an emulator that is such a line itself, and a predictor that echoes the last byte typed -----

  function Ignore(line: Line, b: byte): Line {
    line
  }

  function Reply(line: Line, b: byte): seq<byte> {
    [b]
  }

  function Screen(line: Line): Line {
    line
  }

  function NewUserByte(p: Option<byte>, b: byte, s: Line): Option<byte> {
    Some(b)
  }

  function Keep(p: Option<byte>, e: nat): Option<byte> {
    p
  }

  function Forget(p: Option<byte>, e: nat): Option<byte> {
    None
  }

  function Latency(p: Option<byte>, d: int): Option<byte> {
    p
  }

  function Cull(p: Option<byte>, s: Line): Option<byte> {
    p
  }

  function Echo(p: Option<byte>, s: Line): Line {
    match p
    case None => s
    case Some(b) => Feed(s, b)
  }

  function Instance(): Mosh<Line, Line, Option<byte>> {
    Mosh([], [], None, Patch, Ignore, Reply, Screen, NewUserByte, Keep, Forget, Keep, Latency, Cull, Echo,
         [CLEAR], NewFrame)
  }

  function Client(): Terminal<Line, Line> {
    Terminal(Patch, Shows)
  }

  lemma {:induction false} PatchAppend(line: Line, a: seq<byte>, b: seq<byte>)
    ensures Patch(line, a + b) == Patch(Patch(line, a), b)
    decreases |b|
  {
    if b == [] {
      assert a + b == a;
    } else {
      var front := b[..|b| - 1];
      PatchAppend(line, a, front);
      assert (a + b)[..|a + b| - 1] == a + front;
    }
  }

  lemma PatchSnoc(line: Line, bytes: seq<byte>, b: byte)
    ensures Patch(line, bytes + [b]) == Feed(Patch(line, bytes), b)
  {
    assert (bytes + [b])[..|bytes|] == bytes;
  }

  lemma {:induction false} GlyphsAppend(line: Line, more: Line)
    ensures Patch(line, Glyphs(more)) == line + more
    decreases |more|
  {
    if more == [] {
      assert line + more == line;
    } else {
      var front, last := more[..|more| - 1], more[|more| - 1];
      GlyphsAppend(line, front);
      PatchSnoc(line, Glyphs(front), last as int as byte);
      assert line + more == (line + front) + [last];
    }
  }

  lemma ClearPaints(line: Line, after: Line)
    ensures Patch(line, [CLEAR] + Glyphs(after)) == after
  {
    PatchAppend(line, [CLEAR], Glyphs(after));
    assert [] + [CLEAR] == [CLEAR];
    PatchSnoc(line, [], CLEAR);
    GlyphsAppend([], after);
    assert [] + after == after;
  }

  lemma FramePaints(line: Line, before: Line, after: Line)
    ensures Patch(before, NewFrame(true, before, after)) == after
    ensures Patch(line, NewFrame(false, before, after)) == after
  {
    ClearPaints(line, after);
    if before <= after {
      GlyphsAppend(before, after[|before|..]);
      assert before + after[|before|..] == after;
    } else {
      ClearPaints(before, after);
    }
  }

  /** The laws can be met. */
  lemma InstanceIsLawful()
    ensures Lawful(Instance(), Client())
  {
    var m, c := Instance(), Client();
    forall k: Line, a: seq<byte>, b: seq<byte> ensures c.patch(k, a + b) == c.patch(c.patch(k, a), b) {
      PatchAppend(k, a, b);
    }
    forall k: Line, before: Line, after: Line
      ensures c.shows(k, before) ==> c.shows(c.patch(k, m.newFrame(true, before, after)), after)
      ensures c.shows(c.patch(k, m.newFrame(false, before, after)), after)
    {
      FramePaints(k, before, after);
    }
  }
}
