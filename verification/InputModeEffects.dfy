/** What each control sequence does to the tracker when it is fed: the modes it leaves, whether it
    reports a change, and what it answers, written out. */
module InputModeEffects {
  import opened Options
  import opened Text
  import opened InputModeSequences
  import opened InputModes
  import opened InputModeFeeds

  /** A control sequence with its parameters, each a possibly empty string of digits. */
  function Control(prefix: string, params: seq<string>, final: char): string {
    "\U{1b}[" + prefix + Join(params, ';') + [final]
  }

  predicate AreParams(params: seq<string>) {
    params != [] && forall i, k | 0 <= i < |params| && 0 <= k < |params[i]| :: '0' <= params[i][k] <= '9'
  }

  /** Parameter `i`, if it is given. */
  function Given(params: seq<string>, i: nat): Option<nat>
    requires AreParams(params)
  {
    if i < |params| && params[i] != "" then Some(ParseDecimal(params[i])) else None
  }

  ghost predicate Mentions(params: seq<string>, n: nat)
    requires AreParams(params)
  {
    exists i | 0 <= i < |params| :: Given(params, i) == Some(n)
  }

  // ----- The parameters -----

  lemma {:induction false} JoinedSplits(params: seq<string>)
    requires AreParams(params)
    ensures Split(Join(params, ';'), ';') == params
    ensures AllParams(Join(params, ';'))
  {
    var first := params[0];
    assert ';' !in first;
    if |params| == 1 {
      SplitWhole(first, ';');
    } else {
      JoinedSplits(params[1..]);
      SplitAtFirst(first, ';', Join(params[1..], ';'));
    }
  }

  /** Feeding a well-formed sequence applies it. */
  lemma FeedApplies(m: Modes, prefix: string, params: seq<string>, final: char)
    requires AreParams(params) && IsPrefix(prefix) && IsFinal(prefix, final)
    ensures var e := Apply(m, Sequence(prefix, Join(params, ';'), final));
            FeedOne(Memory(m, ""), Control(prefix, params, final)) ==
            FeedResult(Memory(e.modes, ""), e.changed, e.responses)
    ensures Split(Join(params, ';'), ';') == params
  {
    var sq := Sequence(prefix, Join(params, ';'), final);
    JoinedSplits(params);
    assert Control(prefix, params, final) == sq.Render();
    ReadRendered(sq);
    ApplyAllOne(m, sq);
    FeedIsReference(Memory(m, ""), Ground, sq.Render());
    hide FeedOne, ReadAll, Apply, ApplyAll, Join, Split;
  }

  lemma ModesMentioned(params: seq<string>, n: nat)
    requires AreParams(params)
    ensures n in NumeralsOf(params) <==> Mentions(params, n)
  {
    if n in NumeralsOf(params) {
      var i :| 0 <= i < |params| && IsNumeral(params[i]) && ParseDecimal(params[i]) == n;
      assert Given(params, i) == Some(n);
    }
    if Mentions(params, n) {
      var i :| 0 <= i < |params| && Given(params, i) == Some(n);
      assert IsNumeral(params[i]);
    }
  }

  // ----- Private modes -----

  /** `ESC [ ? ... h` turns the modes it mentions on and `ESC [ ? ... l` turns them off: 9001 is win32
      input, 1 application cursor keys, 2004 bracketed paste. Nothing else changes, nothing is
      answered, and a change is reported exactly if one of the three was different. */
  lemma PrivateModes(m: Modes, params: seq<string>, on: bool)
    requires AreParams(params)
    ensures var win32 := if Mentions(params, 9001) then on else m.win32;
            var cursorKeys := if Mentions(params, 1) then on else m.cursorKeys;
            var paste := if Mentions(params, 2004) then on else m.paste;
            FeedOne(Memory(m, ""), Control("?", params, if on then 'h' else 'l')) ==
            FeedResult(Memory(Modes(m.flags, win32, cursorKeys, paste, m.stack), ""),
                       win32 != m.win32 || cursorKeys != m.cursorKeys || paste != m.paste, [])
  {
    FeedApplies(m, "?", params, if on then 'h' else 'l');
    ModesMentioned(params, 9001);
    ModesMentioned(params, 1);
    ModesMentioned(params, 2004);
    hide FeedOne, NumeralsOf, Mentions, Join, Split, ApplyKitty;
  }

  lemma OnlyMentions(digits: string, n: nat)
    requires digits == Decimal(n)
    ensures AreParams([digits]) && Join([digits], ';') == digits && Given([digits], 0) == Some(n)
    ensures forall k: nat :: Mentions([digits], k) <==> k == n
  {
    ParsePrintedDecimal(n);
    forall i | 0 <= i < |digits| ensures '0' <= digits[i] <= '9' {
      assert IsDigit(digits[i]);
    }
    assert Given([digits], 0) == Some(n);
  }

  /** A single mode, by its number. */
  lemma PrivateMode(m: Modes, n: nat, on: bool)
    ensures var m' := Modes(m.flags, if n == 9001 then on else m.win32, if n == 1 then on else m.cursorKeys,
                            if n == 2004 then on else m.paste, m.stack);
            FeedOne(Memory(m, ""), "\U{1b}[" + "?" + Decimal(n) + (if on then "h" else "l"))
            == FeedResult(Memory(m', ""), m' != m, [])
  {
    hide FeedOne, Decimal, Mentions, Join;
    OnlyMentions(Decimal(n), n);
    PrivateModes(m, [Decimal(n)], on);
  }

  /** The three modes by themselves, on and off. */
  lemma EachPrivateMode(m: Modes)
    ensures FeedOne(Memory(m, ""), "\U{1b}[" + "?" + "2004" + "h") ==
            FeedResult(Memory(m.(paste := true), ""), !m.paste, [])
    ensures FeedOne(Memory(m, ""), "\U{1b}[" + "?" + "2004" + "l") ==
            FeedResult(Memory(m.(paste := false), ""), m.paste, [])
    ensures FeedOne(Memory(m, ""), "\U{1b}[" + "?" + "9001" + "h") ==
            FeedResult(Memory(m.(win32 := true), ""), !m.win32, [])
    ensures FeedOne(Memory(m, ""), "\U{1b}[" + "?" + "9001" + "l") ==
            FeedResult(Memory(m.(win32 := false), ""), m.win32, [])
    ensures FeedOne(Memory(m, ""), "\U{1b}[" + "?" + "1" + "h") ==
            FeedResult(Memory(m.(cursorKeys := true), ""), !m.cursorKeys, [])
    ensures FeedOne(Memory(m, ""), "\U{1b}[" + "?" + "1" + "l") ==
            FeedResult(Memory(m.(cursorKeys := false), ""), m.cursorKeys, [])
  {
    hide FeedOne;
    assert "2004" == Decimal(2004) && "9001" == Decimal(9001) && "1" == Decimal(1);
    PrivateMode(m, 2004, true);
    PrivateMode(m, 2004, false);
    PrivateMode(m, 9001, true);
    PrivateMode(m, 9001, false);
    PrivateMode(m, 1, true);
    PrivateMode(m, 1, false);
  }

  // ----- Keyboard flags -----

  lemma GivenIsNumeral(params: seq<string>, i: nat)
    requires AreParams(params)
    ensures NumeralAt(Join(params, ';'), i) == Given(params, i)
  {
    JoinedSplits(params);
    assert i < |params| ==> AllDigits(params[i]);
    hide Join, Split;
  }

  /** `ESC [ > ... u` stacks the flags and sets the given ones, or 1. */
  lemma PushSetsFlags(m: Modes, params: seq<string>)
    requires AreParams(params)
    ensures var flags := if Given(params, 0).Some? then Given(params, 0).value else 1;
            FeedOne(Memory(m, ""), Control(">", params, 'u')) ==
            FeedResult(Memory(m.(flags := flags, stack := m.stack + [m.flags]), ""), flags != m.flags, [])
  {
    hide FeedOne, Join, NumeralAt, Control, AreParams, Given;
    FeedApplies(m, ">", params, 'u');
    GivenIsNumeral(params, 0);
  }

  /** `ESC [ = ... u` sets the given flags, or 0, and 0 whenever the second parameter is 0. */
  lemma AssignSetsFlags(m: Modes, params: seq<string>)
    requires AreParams(params)
    ensures var flags := if Given(params, 1) == Some(0) || Given(params, 0).None? then 0 else Given(params, 0).value;
            FeedOne(Memory(m, ""), Control("=", params, 'u')) ==
            FeedResult(Memory(m.(flags := flags), ""), flags != m.flags, [])
  {
    hide FeedOne, Join, NumeralAt, Control, AreParams, Given;
    FeedApplies(m, "=", params, 'u');
    GivenIsNumeral(params, 0);
    GivenIsNumeral(params, 1);
  }

  /** `ESC [ < ... u` pops the given number of entries, or one, and at least one: the last entry popped
      becomes the flags, and 0 if the stack was too short. */
  lemma PopRestoresFlags(m: Modes, params: seq<string>)
    requires AreParams(params)
    ensures var n := if Given(params, 0).Some? && Given(params, 0).value > 0 then Given(params, 0).value else 1;
            var left := if n <= |m.stack| then m.stack[..|m.stack| - n] else [];
            var flags := if n <= |m.stack| then m.stack[|m.stack| - n] else 0;
            FeedOne(Memory(m, ""), Control("<", params, 'u')) ==
            FeedResult(Memory(m.(flags := flags, stack := left), ""), flags != m.flags, [])
  {
    hide FeedOne, Join, NumeralAt, Control, AreParams, Given, Pop;
    FeedApplies(m, "<", params, 'u');
    GivenIsNumeral(params, 0);
    Popped(m, PopCount(Join(params, ';')));
  }

  lemma Popped(m: Modes, n: nat)
    requires n > 0
    ensures var left := if n <= |m.stack| then m.stack[..|m.stack| - n] else [];
            var flags := if n <= |m.stack| then m.stack[|m.stack| - n] else 0;
            Pop(m, n) == m.(flags := flags, stack := left)
  {
  }

  /** `ESC [ ? ... u` answers with the flags, and changes nothing. */
  lemma QueryAnswersFlags(m: Modes, params: seq<string>)
    requires AreParams(params)
    ensures FeedOne(Memory(m, ""), Control("?", params, 'u')) ==
            FeedResult(Memory(m, ""), false, ["\U{1b}[?" + Decimal(m.flags) + "u"])
  {
    hide FeedOne, Join, Split, Decimal, Control;
    FeedApplies(m, "?", params, 'u');
    assert INTRODUCER + "?" + Decimal(m.flags) + ['u'] == "\U{1b}[?" + Decimal(m.flags) + "u";
  }

  /** Without a prefix the final `u` means nothing to the tracker. */
  lemma BareSequenceIsIgnored(m: Modes, params: seq<string>)
    requires AreParams(params)
    ensures FeedOne(Memory(m, ""), Control("", params, 'u')) == FeedResult(Memory(m, ""), false, [])
  {
    FeedApplies(m, "", params, 'u');
    hide FeedOne, Join, Split;
  }

  /** The sequences programs send: push, push the default, assign, clear, and query. */
  lemma EachFlagSequence(m: Modes, n: nat)
    ensures FeedOne(Memory(m, ""), "\U{1b}[" + ">" + Decimal(n) + "u") ==
            FeedResult(Memory(m.(flags := n, stack := m.stack + [m.flags]), ""), n != m.flags, [])
    ensures FeedOne(Memory(m, ""), "\U{1b}[" + ">" + "" + "u") ==
            FeedResult(Memory(m.(flags := 1, stack := m.stack + [m.flags]), ""), 1 != m.flags, [])
    ensures FeedOne(Memory(m, ""), "\U{1b}[" + "=" + Decimal(n) + "u") ==
            FeedResult(Memory(m.(flags := n), ""), n != m.flags, [])
    ensures FeedOne(Memory(m, ""), "\U{1b}[" + "=" + (Decimal(n) + ";0") + "u") ==
            FeedResult(Memory(m.(flags := 0), ""), 0 != m.flags, [])
    ensures FeedOne(Memory(m, ""), "\U{1b}[" + "?" + "" + "u") ==
            FeedResult(Memory(m, ""), false, ["\U{1b}[?" + Decimal(m.flags) + "u"])
  {
    hide FeedOne, Decimal, Mentions, Join;
    OnlyMentions(Decimal(n), n);
    TwoParams(n);
    NoParams();
    PushSetsFlags(m, [Decimal(n)]);
    PushSetsFlags(m, [""]);
    AssignSetsFlags(m, [Decimal(n)]);
    AssignSetsFlags(m, [Decimal(n), "0"]);
    QueryAnswersFlags(m, [""]);
  }

  lemma NoParams()
    ensures AreParams([""]) && Join([""], ';') == ""
  {
  }

  lemma TwoParams(n: nat)
    ensures var params := [Decimal(n), "0"];
            AreParams(params) && Given(params, 0) == Some(n) && Given(params, 1) == Some(0)
            && Join(params, ';') == Decimal(n) + ";0"
  {
    var params := [Decimal(n), "0"];
    ParsePrintedDecimal(n);
    assert params[1..] == ["0"] && Join(["0"], ';') == "0";
    assert ParseDecimal("0") == 0 by { assert "0"[..0] == ""; }
    assert Decimal(n) + [';'] + "0" == Decimal(n) + ";0";
  }
}
