/** What feeding terminal output to the tracker means: one feed, a list of chunks, and the
    preamble that brings a fresh tracker to the same modes. */
module InputModeFeeds {
  import opened Options
  import opened Text
  import opened InputModeSequences
  import opened InputModes

  /** What the tracker remembers between two feeds. */
  datatype Memory = Memory(modes: Modes, pending: string)

  datatype FeedResult = FeedResult(memory: Memory, changed: bool, responses: seq<string>)

  const FRESH_MEMORY: Memory := Memory(FRESH_MODES, "")

  function FeedOne(t: Memory, data: string): FeedResult
  {
    if data == "" then FeedResult(t, false, [])
    else
      var tokens := Tokenize(t.pending + data);
      var e := ApplyAll(t.modes, tokens.seqs);
      FeedResult(Memory(e.modes, Pending(tokens.tail)), e.changed, e.responses)
  }

  /** One feed per chunk: the final memory, whether any feed changed something, all responses. */
  function FeedAll(t: Memory, chunks: seq<string>): FeedResult
    decreases chunks
  {
    if chunks == [] then FeedResult(t, false, [])
    else
      var first := FeedOne(t, chunks[0]);
      var rest := FeedAll(first.memory, chunks[1..]);
      FeedResult(rest.memory, first.changed || rest.changed, first.responses + rest.responses)
  }

  function Concat(parts: seq<string>): string {
    if parts == [] then "" else parts[0] + Concat(parts[1..])
  }

  /** The kept text is what the reference automaton has read in state `q`. */
  predicate Remembers(t: Memory, q: Auto) {
    q.WellFormed() && !q.Escape? && t.pending == q.Read()
  }

  /** The reference: the automaton reads `data` one character at a time and every
      completed sequence is applied once, in order. */
  function ReferenceFeed(t: Memory, q: Auto, data: string): FeedResult
  {
    var (q', seqs) := ReadAll(data, q);
    var e := ApplyAll(t.modes, seqs);
    FeedResult(Memory(e.modes, q'.Forget().Read()), e.changed, e.responses)
  }

  lemma FeedIsReference(t: Memory, q: Auto, data: string)
    requires Remembers(t, q)
    ensures FeedOne(t, data) == ReferenceFeed(t, q, data)
    ensures Remembers(FeedOne(t, data).memory, ReadAll(data, q).0.Forget())
  {
    hide Tokenize, Pending;
    TokenizeIsReadAll(q, data);
    ReadAllWellFormed(data, q);
  }

  // ----- Chunks -----

  predicate EndsInEscape(s: string) {
    s != "" && s[|s| - 1] == ESC
  }

  /** No boundary between two chunks falls between an ESC and a '['. */
  predicate IntroducersWhole(chunks: seq<string>)
  {
    chunks == [] ||
    (!(EndsInEscape(chunks[0]) && "[" <= Concat(chunks[1..])) && IntroducersWhole(chunks[1..]))
  }

  lemma ForgottenEscape(rest: string)
    requires !("[" <= rest)
    ensures ReadAll(rest, Escape).1 == ReadAll(rest, Ground).1
    ensures ReadAll(rest, Escape).0.Forget() == ReadAll(rest, Ground).0.Forget()
  {
    if rest != "" {
      assert rest[..1] == [rest[0]];
    }
  }

  /** Feeding chunks is one reading of their concatenation by the automaton. */
  lemma {:induction false} ChunksAreReference(t: Memory, q: Auto, chunks: seq<string>)
    requires Remembers(t, q) && IntroducersWhole(chunks)
    ensures FeedAll(t, chunks) == ReferenceFeed(t, q, Concat(chunks))
    decreases chunks
  {
    if chunks != [] {
      var (c, rest) := (chunks[0], Concat(chunks[1..]));
      var (q1, s1) := ReadAll(c, q);
      FeedIsReference(t, q, c);
      ChunksAreReference(FeedOne(t, c).memory, q1.Forget(), chunks[1..]);
      ReadAllWellFormed(c, q);
      if q1.Escape? {
        ForgottenEscape(rest);
      }
      ReadAllConcat(c, rest, q);
      ApplyAllConcat(t.modes, s1, ReadAll(rest, q1).1);
    }
  }

  /** However terminal output is cut into chunks, the tracker ends in the same memory, gives
      the same responses and reports a change alike, if no cut separates ESC from '['. */
  lemma ChunkInvariance(t: Memory, q: Auto, chunks: seq<string>)
    requires Remembers(t, q) && IntroducersWhole(chunks)
    ensures FeedAll(t, chunks) == FeedOne(t, Concat(chunks)) == ReferenceFeed(t, q, Concat(chunks))
  {
    ChunksAreReference(t, q, chunks);
    FeedIsReference(t, q, Concat(chunks));
  }

  /** Cutting after `a` is harmless whatever follows exactly when `a` does not end in ESC. */
  lemma CutIsHarmlessIff(t: Memory, q: Auto, a: string)
    requires Remembers(t, q)
    ensures (forall b: string :: FeedAll(t, [a, b]) == FeedOne(t, a + b)) <==> !EndsInEscape(a)
  {
    if !EndsInEscape(a) {
      forall b: string
        ensures FeedAll(t, [a, b]) == FeedOne(t, a + b)
      {
        assert [a, b][1..] == [b] && [b][1..] == [];
        assert Concat([b]) == b && Concat([a, b]) == a + b;
        assert IntroducersWhole([b]) && IntroducersWhole([a, b]);
        ChunkInvariance(t, q, [a, b]);
      }
    } else {
      CutLosesIntroducer(t, q, a);
      assert !(FeedAll(t, [a, "["]) == FeedOne(t, a + "["));
    }
  }

  lemma CutLosesIntroducer(t: Memory, q: Auto, a: string)
    requires Remembers(t, q) && EndsInEscape(a)
    ensures FeedAll(t, [a, "["]).memory.pending == ""
    ensures FeedOne(t, a + "[").memory.pending == INTRODUCER
  {
    hide FeedOne, ApplyAll;
    ReadAllWellFormed(a, q);
    FeedIsReference(t, q, a);
    var t1 := FeedOne(t, a).memory;
    FeedIsReference(t1, Ground, "[");
    assert ReadAll("[", Ground).0 == Ground;
    FeedIsReference(t, q, a + "[");
    ReadAllConcat(a, "[", q);
    assert ReadAll("[", Escape).0 == Csi("", "");
    var t2 := FeedOne(t1, "[").memory;
    assert [a, "["][1..] == ["["] && ["["][1..] == [];
    assert FeedAll(t2, []).memory == t2;
    assert FeedAll(t1, ["["]).memory == t2;
  }

  lemma {:induction false} NoEscapeStaysGround(s: string)
    requires ESC !in s
    ensures ReadAll(s, Ground) == (Ground, [])
  {
    if s != "" {
      NoEscapeStaysGround(s[1..]);
      assert Next(Ground, s[0]) == (Ground, []);
      assert [] + ReadAll(s[1..], Ground).1 == [];
    }
  }

  lemma {:induction false} ReadParams(params: string, prefix: string, seen: string)
    requires AllParams(params) && (prefix == "" && seen == "" && params != "" ==> !IsPrefixChar(params[0]))
    ensures ReadAll(params, Csi(prefix, seen)) == (Csi(prefix, seen + params), [])
  {
    if params == "" {
      assert seen + params == seen;
    } else {
      ReadParams(params[1..], prefix, seen + [params[0]]);
      assert Next(Csi(prefix, seen), params[0]) == (Csi(prefix, seen + [params[0]]), []);
      assert [] + ReadAll(params[1..], Csi(prefix, seen + [params[0]])).1 == [];
      assert seen + [params[0]] + params[1..] == seen + params;
    }
  }

  lemma ReadRendered(sq: Sequence)
    requires sq.WellFormed()
    ensures ReadAll(sq.Render(), Ground) == (Ground, [sq])
  {
    var (prefix, params, final) := (sq.prefix, sq.params, sq.final);
    assert ReadAll(INTRODUCER, Ground) == (Csi("", ""), []) by {
      assert INTRODUCER[1..] == "[" && "["[1..] == "";
      var none: seq<Sequence> := [];
      assert none + none == none;
      assert ReadAll("[", Escape) == (Csi("", ""), none);
    }
    assert ReadAll(prefix, Csi("", "")) == (Csi(prefix, ""), []) by {
      if prefix != "" { assert prefix == [prefix[0]] && prefix[1..] == ""; }
    }
    ReadParams(params, prefix, "");
    assert "" + params == params;
    assert ReadAll([final], Csi(prefix, params)) == (Ground, [sq]) by {
      assert Next(Csi(prefix, params), final) == (Ground, [sq]);
      assert [final][1..] == "" && [sq] + [] == [sq];
    }
    ReadAllConcat(INTRODUCER, prefix, Ground);
    ReadAllConcat(INTRODUCER + prefix, params, Ground);
    ReadAllConcat(INTRODUCER + prefix + params, [final], Ground);
    var none: seq<Sequence> := [];
    assert none + [sq] == [sq] && none + none == none;
  }

  /** A sequence cut right after its ESC is lost: nothing is applied, where the
      uncut sequence takes effect. */
  lemma CutSequenceIsLost(m: Modes, sq: Sequence)
    requires sq.WellFormed()
    ensures FeedAll(Memory(m, ""), [[ESC], sq.Render()[1..]]) == FeedResult(Memory(m, ""), false, [])
    ensures FeedOne(Memory(m, ""), sq.Render()).memory.modes == Apply(m, sq).modes
  {
    var rest := sq.Render()[1..];
    EscapeIsForgotten(m);
    RenderedHasOneEscape(sq);
    NoEscapeIsForgotten(m, rest);
    NothingTwice(Memory(m, ""), [ESC], rest);
    WholeIsApplied(m, sq);
    hide FeedOne, FeedAll, Apply;
  }

  lemma RenderedHasOneEscape(sq: Sequence)
    requires sq.WellFormed()
    ensures ESC !in sq.Render()[1..]
  {
    assert sq.Render()[1..] == "[" + sq.prefix + sq.params + [sq.final];
  }

  lemma WholeIsApplied(m: Modes, sq: Sequence)
    requires sq.WellFormed()
    ensures FeedOne(Memory(m, ""), sq.Render()).memory.modes == Apply(m, sq).modes
  {
    ReadRendered(sq);
    ApplyAllOne(m, sq);
    FeedIsReference(Memory(m, ""), Ground, sq.Render());
    hide FeedOne, ReadAll, Apply, ApplyAll;
  }

  lemma NothingTwice(t: Memory, a: string, b: string)
    requires FeedOne(t, a) == FeedOne(t, b) == FeedResult(t, false, [])
    ensures FeedAll(t, [a, b]) == FeedResult(t, false, [])
  {
    hide FeedOne;
    assert [a, b][1..] == [b] && [b][1..] == [];
    assert FeedAll(t, [b]) == FeedResult(t, false, []);
  }

  lemma NoEscapeIsForgotten(m: Modes, text: string)
    requires ESC !in text
    ensures FeedOne(Memory(m, ""), text) == FeedResult(Memory(m, ""), false, [])
  {
    FeedIsReference(Memory(m, ""), Ground, text);
    NoEscapeStaysGround(text);
    hide FeedOne, ReadAll;
  }

  /** An ESC alone leaves nothing behind. */
  lemma EscapeIsForgotten(m: Modes)
    ensures FeedOne(Memory(m, ""), [ESC]) == FeedResult(Memory(m, ""), false, [])
  {
    FeedIsReference(Memory(m, ""), Ground, [ESC]);
    assert [ESC][1..] == "";
    assert ReadAll([ESC], Ground) == (Escape, []);
    hide FeedOne;
  }

  // ----- The preamble -----

  function PreambleParts(m: Modes): seq<string>
  {
    (if m.flags > 0 then [INTRODUCER + "=" + Decimal(m.flags) + ";1u"] else [])
    + (if m.win32 then [INTRODUCER + "?9001h"] else [])
    + (if m.cursorKeys then [INTRODUCER + "?1h"] else [])
    + (if m.paste then [INTRODUCER + "?2004h"] else [])
  }

  function Preamble(m: Modes): string {
    Concat(PreambleParts(m))
  }

  function PreambleSequences(m: Modes): seq<Sequence>
  {
    (if m.flags > 0 then [Sequence("=", Decimal(m.flags) + ";1", 'u')] else [])
    + (if m.win32 then [Sequence("?", "9001", 'h')] else [])
    + (if m.cursorKeys then [Sequence("?", "1", 'h')] else [])
    + (if m.paste then [Sequence("?", "2004", 'h')] else [])
  }

  function Renders(seqs: seq<Sequence>): seq<string> {
    seq(|seqs|, i requires 0 <= i < |seqs| => seqs[i].Render())
  }

  lemma {:induction false} ReadRenders(seqs: seq<Sequence>)
    requires forall sq | sq in seqs :: sq.WellFormed()
    ensures ReadAll(Concat(Renders(seqs)), Ground) == (Ground, seqs)
  {
    if seqs != [] {
      ReadRendered(seqs[0]);
      ReadRenders(seqs[1..]);
      assert Renders(seqs)[1..] == Renders(seqs[1..]);
      ReadAllConcat(seqs[0].Render(), Concat(Renders(seqs[1..])), Ground);
      assert [seqs[0]] + seqs[1..] == seqs;
    }
  }

  lemma PreambleIsRendered(m: Modes)
    ensures forall sq | sq in PreambleSequences(m) :: sq.WellFormed()
    ensures Preamble(m) == Concat(Renders(PreambleSequences(m)))
  {
    var digits := Decimal(m.flags);
    var flagSeq := Sequence("=", digits + ";1", 'u');
    assert flagSeq.WellFormed() by {
      assert forall i | 0 <= i < |digits| :: IsDigit(digits[i]);
    }
    assert flagSeq.Render() == INTRODUCER + "=" + digits + ";1u";
    assert Sequence("?", "9001", 'h').Render() == INTRODUCER + "?9001h";
    assert Sequence("?", "1", 'h').Render() == INTRODUCER + "?1h";
    assert Sequence("?", "2004", 'h').Render() == INTRODUCER + "?2004h";
    assert Renders(PreambleSequences(m)) == PreambleParts(m);
  }

  lemma SetFlagsOfPrinted(n: nat)
    ensures SetFlags(Decimal(n) + ";1") == n
  {
    var digits := Decimal(n);
    assert ';' !in digits by { assert forall i | 0 <= i < |digits| :: IsDigit(digits[i]); }
    assert digits + ";1" == digits + [';'] + "1";
    SplitAtFirst(digits, ';', "1");
    SplitWhole("1", ';');
    ParsePrintedDecimal(n);
    assert Split(digits + ";1", ';') == [digits, "1"];
    assert ParseDecimal("1") == 1 by { assert "1"[..0] == ""; }
  }

  lemma PrivateNumbers()
    ensures NumeralsOf(Split("9001", ';')) == {WIN32_INPUT_MODE}
    ensures NumeralsOf(Split("1", ';')) == {APPLICATION_CURSOR_KEYS_MODE}
    ensures NumeralsOf(Split("2004", ';')) == {BRACKETED_PASTE_MODE}
  {
    OneNumeral("9001", Decimal(9001), 9001);
    OneNumeral("1", Decimal(1), 1);
    OneNumeral("2004", Decimal(2004), 2004);
  }

  lemma OneNumeral(s: string, printed: string, n: nat)
    requires s == printed == Decimal(n)
    ensures NumeralsOf(Split(s, ';')) == {n}
  {
    ParsePrintedDecimal(n);
    assert ';' !in s by { assert forall i | 0 <= i < |s| :: IsDigit(s[i]); }
    SplitWhole(s, ';');
    assert Split(s, ';')[0] == s;
  }

  lemma ApplyOptional(m: Modes, on: bool, sq: Sequence, m': Modes)
    requires on ==> Apply(m, sq).modes == m' && Apply(m, sq).responses == []
    requires !on ==> m' == m
    ensures ApplyAll(m, if on then [sq] else []).modes == m'
    ensures ApplyAll(m, if on then [sq] else []).responses == []
  {
    if on { ApplyAllOne(m, sq); }
  }

  lemma ApplyPreamble(m: Modes)
    ensures var e := ApplyAll(FRESH_MODES, PreambleSequences(m));
            e.modes == m.(stack := []) && e.responses == []
  {
    hide ApplyAll, SetFlags, NumeralsOf;
    var flagSeq := Sequence("=", Decimal(m.flags) + ";1", 'u');
    var win32Seq, cursorSeq := Sequence("?", "9001", 'h'), Sequence("?", "1", 'h');
    var pasteSeq := Sequence("?", "2004", 'h');
    var m1 := FRESH_MODES.(flags := m.flags);
    var m2 := m1.(win32 := m.win32);
    var m3 := m2.(cursorKeys := m.cursorKeys);
    var m4 := m3.(paste := m.paste);
    SetFlagsOfPrinted(m.flags);
    PrivateNumbers();
    ApplyOptional(FRESH_MODES, m.flags > 0, flagSeq, m1);
    ApplyOptional(m1, m.win32, win32Seq, m2);
    ApplyOptional(m2, m.cursorKeys, cursorSeq, m3);
    ApplyOptional(m3, m.paste, pasteSeq, m4);
    var p1 := if m.flags > 0 then [flagSeq] else [];
    var p2 := if m.win32 then [win32Seq] else [];
    var p3 := if m.cursorKeys then [cursorSeq] else [];
    var p4 := if m.paste then [pasteSeq] else [];
    ApplyAllConcat(FRESH_MODES, p1, p2);
    ApplyAllConcat(FRESH_MODES, p1 + p2, p3);
    ApplyAllConcat(FRESH_MODES, p1 + p2 + p3, p4);
  }

  /** The memory of a fresh tracker that was fed the preamble of modes `m`. */
  function Restored(m: Modes): Memory {
    FeedOne(FRESH_MEMORY, Preamble(m)).memory
  }

  /** The preamble brings a fresh tracker to the state it was taken from, answers nothing,
      and leaves nothing pending; only the stack below is empty. */
  lemma PreambleRestores(m: Modes)
    ensures FeedOne(FRESH_MEMORY, Preamble(m)).responses == []
    ensures Restored(m) == Memory(m.(stack := []), "")
    ensures Restored(m).modes.GetState() == m.GetState()
  {
    hide FeedOne, ApplyAll;
    PreambleIsRendered(m);
    ReadRenders(PreambleSequences(m));
    FeedIsReference(FRESH_MEMORY, Ground, Preamble(m));
    ApplyPreamble(m);
  }

  // ----- Continuing after the preamble -----

  /** The sequences the feeds of `chunks` recognise; they do not depend on the modes. */
  function Recognised(pending: string, chunks: seq<string>): seq<Sequence>
    decreases chunks
  {
    if chunks == [] then []
    else if chunks[0] == "" then Recognised(pending, chunks[1..])
    else
      var tokens := Tokenize(pending + chunks[0]);
      tokens.seqs + Recognised(Pending(tokens.tail), chunks[1..])
  }

  function PendingAfter(pending: string, chunks: seq<string>): string
    decreases chunks
  {
    if chunks == [] then pending
    else if chunks[0] == "" then PendingAfter(pending, chunks[1..])
    else PendingAfter(Pending(Tokenize(pending + chunks[0]).tail), chunks[1..])
  }

  lemma {:induction false} FeedAllApplies(t: Memory, chunks: seq<string>)
    ensures var e := ApplyAll(t.modes, Recognised(t.pending, chunks));
            FeedAll(t, chunks) ==
            FeedResult(Memory(e.modes, PendingAfter(t.pending, chunks)), e.changed, e.responses)
    decreases chunks
  {
    hide Tokenize, Pending;
    if chunks != [] {
      var first := FeedOne(t, chunks[0]);
      FeedAllApplies(first.memory, chunks[1..]);
      if chunks[0] == "" {
        assert [] + FeedAll(t, chunks[1..]).responses == FeedAll(t, chunks[1..]).responses;
      } else {
        var seqs := Tokenize(t.pending + chunks[0]).seqs;
        ApplyAllConcat(t.modes, seqs, Recognised(first.memory.pending, chunks[1..]));
      }
    }
  }

  /** Nobody who feeds both trackers the same chunks can tell them apart. */
  predicate Agree(r: FeedResult, r': FeedResult) {
    && r.memory.modes.GetState() == r'.memory.modes.GetState()
    && r.memory.pending == r'.memory.pending
    && r.changed == r'.changed
    && r.responses == r'.responses
  }

  /** A tracker with nothing pending and the one restored from its preamble agree on every
      continuation that never pops an entry pushed before the preamble was taken. */
  lemma RestoredAgreesAboveSnapshot(m: Modes, chunks: seq<string>)
    requires StaysAbove(Recognised("", chunks), 0)
    ensures Agree(FeedAll(Memory(m, ""), chunks), FeedAll(Restored(m), chunks))
  {
    hide FeedAll, ApplyAll, Restored;
    PreambleRestores(m);
    FeedAllApplies(Memory(m, ""), chunks);
    FeedAllApplies(Restored(m), chunks);
    RunAbove(m, m.stack, m.(stack := []), Recognised("", chunks));
  }

  /** They agree on every continuation whatsoever exactly when all stacked flags are zero. */
  lemma RestoredAgreesAlwaysIff(m: Modes)
    ensures (forall chunks: seq<string> :: Agree(FeedAll(Memory(m, ""), chunks), FeedAll(Restored(m), chunks)))
            <==> AllZero(m.stack)
  {
    hide FeedAll, Restored, StaysAbove;
    PreambleRestores(m);
    if AllZero(m.stack) {
      forall chunks: seq<string>
        ensures Agree(FeedAll(Memory(m, ""), chunks), FeedAll(Restored(m), chunks))
      {
        FeedAllApplies(Memory(m, ""), chunks);
        FeedAllApplies(Restored(m), chunks);
        RunUpToZeros(m, m.(stack := []), Recognised("", chunks));
      }
    } else {
      var i :| 0 <= i < |m.stack| && m.stack[i] != 0;
      var chunk := PopSequence(|m.stack| - i).Render();
      PopsTell(m, |m.stack| - i);
      assert !Agree(FeedAll(Memory(m, ""), [chunk]), FeedAll(Restored(m), [chunk]));
    }
  }

  function PopSequence(n: nat): Sequence {
    Sequence("<", Decimal(n), 'u')
  }

  /** Popping `n` entries below the snapshot shows the stacked flags on one side, zero on the other. */
  lemma PopsTell(m: Modes, n: nat)
    requires 1 <= n <= |m.stack|
    ensures var chunks := [PopSequence(n).Render()];
            && FeedAll(Memory(m, ""), chunks).memory.modes.flags == m.stack[|m.stack| - n]
            && FeedAll(Restored(m), chunks).memory.modes.flags == 0
  {
    hide FeedOne, ApplyAll, Restored;
    PreambleRestores(m);
    var sq := PopSequence(n);
    var digits := Decimal(n);
    assert forall i | 0 <= i < |digits| :: IsDigit(digits[i]);
    SplitWhole(digits, ';');
    ParsePrintedDecimal(n);
    assert NumeralAt(digits, 0) == Some(n);
    assert PopCount(sq.params) == n;
    var chunks := [sq.Render()];
    assert chunks[1..] == [];
    forall x: Modes
      ensures FeedAll(Memory(x, ""), chunks).memory.modes == Pop(x, n)
    {
      FeedIsReference(Memory(x, ""), Ground, sq.Render());
      ReadRendered(sq);
      ApplyAllOne(x, sq);
    }
  }
}
