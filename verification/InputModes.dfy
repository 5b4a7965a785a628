/** What a recognised control sequence does to the input modes, and what a run of
    sequences does: the meaning against which the tracker is proved. */
module InputModes {
  import opened Options
  import opened Text
  import opened InputModeSequences

  const APPLICATION_CURSOR_KEYS_MODE: nat := 1
  const WIN32_INPUT_MODE: nat := 9001
  const BRACKETED_PASTE_MODE: nat := 2004

  /** The keyboard flags with the stack of pushed flags (top last), and the three private modes. */
  datatype Modes = Modes(flags: nat, win32: bool, cursorKeys: bool, paste: bool, stack: seq<nat>) {
    /** `getState()`: everything but the stack. */
    function GetState(): State {
      State(flags, win32, cursorKeys, paste)
    }
  }

  datatype State = State(flags: nat, win32: bool, cursorKeys: bool, paste: bool)

  const FRESH_MODES: Modes := Modes(0, false, false, false, [])

  // ----- Parameters -----

  predicate IsNumeral(s: string) {
    s != "" && AllDigits(s)
  }

  function NumeralAt(params: string, i: nat): Option<nat> {
    var pieces := Split(params, ';');
    if i < |pieces| && IsNumeral(pieces[i]) then Some(ParseDecimal(pieces[i])) else None
  }

  function GetOr(o: Option<nat>, default: nat): nat {
    if o.Some? then o.value else default
  }

  function NumeralsOf(pieces: seq<string>): set<nat> {
    set i | 0 <= i < |pieces| && IsNumeral(pieces[i]) :: ParseDecimal(pieces[i])
  }

  // ----- One sequence -----

  /** `n` pops of the flag stack, each of which sets the flags; an empty stack yields zero. */
  function Pop(m: Modes, n: nat): Modes
  {
    if n == 0 then m
    else if n <= |m.stack| then m.(flags := m.stack[|m.stack| - n], stack := m.stack[..|m.stack| - n])
    else m.(flags := 0, stack := [])
  }

  function PopCount(params: string): nat {
    var n := GetOr(NumeralAt(params, 0), 1);
    if n < 1 then 1 else n
  }

  function SetFlags(params: string): nat {
    if GetOr(NumeralAt(params, 1), 1) == 0 then 0 else GetOr(NumeralAt(params, 0), 0)
  }

  function FlagsReport(flags: nat): string {
    Sequence("?", Decimal(flags), 'u').Render()
  }

  datatype Effect = Effect(modes: Modes, changed: bool, responses: seq<string>)

  function ApplyKitty(m: Modes, prefix: string, params: string): Effect
  {
    if prefix == "?" then Effect(m, false, [FlagsReport(m.flags)])
    else
      var m' :=
        if prefix == ">" then m.(flags := GetOr(NumeralAt(params, 0), 1), stack := m.stack + [m.flags])
        else if prefix == "=" then m.(flags := SetFlags(params))
        else if prefix == "<" then Pop(m, PopCount(params))
        else m;
      Effect(m', m'.flags != m.flags, [])
  }

  function ApplyPrivate(m: Modes, params: string, on: bool): Effect
  {
    var modes := NumeralsOf(Split(params, ';'));
    var m' := m.(win32 := if WIN32_INPUT_MODE in modes then on else m.win32,
                 cursorKeys := if APPLICATION_CURSOR_KEYS_MODE in modes then on else m.cursorKeys,
                 paste := if BRACKETED_PASTE_MODE in modes then on else m.paste);
    Effect(m', m' != m, [])
  }

  function Apply(m: Modes, sq: Sequence): Effect {
    if sq.final == 'u' then ApplyKitty(m, sq.prefix, sq.params)
    else ApplyPrivate(m, sq.params, sq.final == 'h')
  }

  // ----- A run of sequences -----

  function Then(e: Effect, next: Effect): Effect {
    Effect(next.modes, e.changed || next.changed, e.responses + next.responses)
  }

  /** The sequences one after another; `changed` if any of them changed something. */
  function ApplyAll(m: Modes, seqs: seq<Sequence>): Effect
    decreases seqs
  {
    if seqs == [] then Effect(m, false, [])
    else
      var e := Apply(m, seqs[0]);
      Then(e, ApplyAll(e.modes, seqs[1..]))
  }

  lemma {:induction false} ApplyAllConcat(m: Modes, a: seq<Sequence>, b: seq<Sequence>)
    ensures ApplyAll(m, a + b) == Then(ApplyAll(m, a), ApplyAll(ApplyAll(m, a).modes, b))
    decreases a
  {
    if a == [] {
      assert a + b == b;
      assert [] + ApplyAll(m, b).responses == ApplyAll(m, b).responses;
    } else {
      var e := Apply(m, a[0]);
      ApplyAllConcat(e.modes, a[1..], b);
      assert (a + b)[0] == a[0] && (a + b)[1..] == a[1..] + b;
      var x := ApplyAll(e.modes, a[1..]);
      var y := ApplyAll(x.modes, b);
      assert e.responses + (x.responses + y.responses) == (e.responses + x.responses) + y.responses;
    }
  }

  lemma ApplyNone(m: Modes)
    ensures ApplyAll(m, []) == Effect(m, false, [])
  {
  }

  lemma ApplyAllOne(m: Modes, sq: Sequence)
    ensures ApplyAll(m, [sq]) == Apply(m, sq)
  {
    var e := Apply(m, sq);
    assert [sq][1..] == [];
    assert e.responses + [] == e.responses;
  }

  lemma ApplyOneMore(m: Modes, done: seq<Sequence>, sq: Sequence)
    ensures ApplyAll(m, done + [sq]) == Then(ApplyAll(m, done), Apply(ApplyAll(m, done).modes, sq))
  {
    ApplyAllConcat(m, done, [sq]);
    ApplyAllOne(ApplyAll(m, done).modes, sq);
  }

  // ----- Depth of the flag stack -----

  function Pushes(sq: Sequence): nat {
    if sq.final == 'u' && sq.prefix == ">" then 1 else 0
  }

  function Pops(sq: Sequence): nat {
    if sq.final == 'u' && sq.prefix == "<" then PopCount(sq.params) else 0
  }

  /** Starting `depth` entries above some level of the stack, the sequences never pop below it. */
  predicate StaysAbove(seqs: seq<Sequence>, depth: nat)
  {
    seqs == [] || (Pops(seqs[0]) <= depth && StaysAbove(seqs[1..], depth + Pushes(seqs[0]) - Pops(seqs[0])))
  }

  /** The number of entries above that level at the end. */
  function DepthAfter(seqs: seq<Sequence>, depth: nat): nat
    requires StaysAbove(seqs, depth)
  {
    if seqs == [] then depth
    else DepthAfter(seqs[1..], depth + Pushes(seqs[0]) - Pops(seqs[0]))
  }

  /** Two mode states that agree on everything but the bottom of the stack. */
  predicate SameAbove(m: Modes, base: seq<nat>, n: Modes) {
    m.GetState() == n.GetState() && m.stack == base + n.stack
  }

  lemma StepAbove(m: Modes, base: seq<nat>, n: Modes, sq: Sequence)
    requires SameAbove(m, base, n) && Pops(sq) <= |n.stack|
    ensures var (em, en) := (Apply(m, sq), Apply(n, sq));
            && SameAbove(em.modes, base, en.modes)
            && em.changed == en.changed && em.responses == en.responses
            && |en.modes.stack| == |n.stack| + Pushes(sq) - Pops(sq)
  {
    hide NumeralAt, NumeralsOf, FlagsReport, SetFlags, PopCount;
    var k := Pops(sq);
    if Pushes(sq) == 1 {
      assert base + n.stack + [n.flags] == base + (n.stack + [n.flags]);
    } else if k > 0 {
      assert (base + n.stack)[..|m.stack| - k] == base + n.stack[..|n.stack| - k];
    }
  }

  /** The bottom of the stack is invisible to sequences that never pop down to it. */
  lemma {:induction false} RunAbove(m: Modes, base: seq<nat>, n: Modes, seqs: seq<Sequence>)
    requires SameAbove(m, base, n) && StaysAbove(seqs, |n.stack|)
    ensures var (em, en) := (ApplyAll(m, seqs), ApplyAll(n, seqs));
            && SameAbove(em.modes, base, en.modes)
            && em.changed == en.changed && em.responses == en.responses
            && |en.modes.stack| == DepthAfter(seqs, |n.stack|)
    decreases seqs
  {
    if seqs != [] {
      StepAbove(m, base, n, seqs[0]);
      RunAbove(Apply(m, seqs[0]).modes, base, Apply(n, seqs[0]).modes, seqs[1..]);
    }
  }

  /** Push; then any sequences that keep the pushed entry, ending `d` pushes above it;
      then a pop of `d + 1`: flags and stack are those before the push. */
  lemma PushPopRestores(m: Modes, push: Sequence, body: seq<Sequence>, pop: Sequence)
    requires Pushes(push) == 1
    requires StaysAbove(body, 0) && Pops(pop) == DepthAfter(body, 0) + 1
    ensures var end := ApplyAll(m, [push] + body + [pop]).modes;
            end.flags == m.flags && end.stack == m.stack
  {
    hide NumeralAt, NumeralsOf, FlagsReport, SetFlags;
    var pushed := Apply(m, push).modes;
    var base := m.stack + [m.flags];
    RunAbove(pushed, base, pushed.(stack := []), body);
    var before := ApplyAll(pushed, body).modes;
    var above := ApplyAll(pushed.(stack := []), body).modes.stack;
    assert before.stack == base + above;
    var n := Pops(pop);
    assert before.stack[|before.stack| - n] == m.flags;
    assert before.stack[..|before.stack| - n] == m.stack;
    ApplyAllOne(m, push);
    ApplyAllConcat(m, [push], body);
    ApplyAllOne(before, pop);
    ApplyAllConcat(m, [push] + body, [pop]);
  }

  // ----- Stacks that hold only zeros -----

  predicate AllZero(s: seq<nat>) {
    forall i | 0 <= i < |s| :: s[i] == 0
  }

  /** Same state, and the stacks differ by zeros below the common part. */
  predicate SameUpToZeros(m: Modes, n: Modes) {
    && m.GetState() == n.GetState()
    && |n.stack| <= |m.stack|
    && AllZero(m.stack[..|m.stack| - |n.stack|])
    && m.stack[|m.stack| - |n.stack|..] == n.stack
  }

  lemma StepUpToZeros(m: Modes, n: Modes, sq: Sequence)
    requires SameUpToZeros(m, n)
    ensures var (em, en) := (Apply(m, sq), Apply(n, sq));
            && SameUpToZeros(em.modes, en.modes)
            && em.changed == en.changed && em.responses == en.responses
  {
    var k := Pops(sq);
    var base := m.stack[..|m.stack| - |n.stack|];
    assert m.stack == base + n.stack;
    if k <= |n.stack| {
      StepAbove(m, base, n, sq);
      var n' := Apply(n, sq).modes;
      assert (base + n'.stack)[|base|..] == n'.stack;
      assert (base + n'.stack)[..|base|] == base;
    } else {
      hide NumeralAt, NumeralsOf, FlagsReport, SetFlags, PopCount;
      var m' := Apply(m, sq).modes;
      assert m'.flags == 0 by {
        if k <= |m.stack| { assert m.stack[|m.stack| - k] == base[|m.stack| - k]; }
      }
      assert m'.stack[|m'.stack|..] == [];
      assert m'.stack[..|m'.stack|] == m'.stack;
      assert forall i | 0 <= i < |m'.stack| :: m'.stack[i] == base[i];
    }
  }

  lemma {:induction false} RunUpToZeros(m: Modes, n: Modes, seqs: seq<Sequence>)
    requires SameUpToZeros(m, n)
    ensures var (em, en) := (ApplyAll(m, seqs), ApplyAll(n, seqs));
            && SameUpToZeros(em.modes, en.modes)
            && em.changed == en.changed && em.responses == en.responses
    decreases seqs
  {
    if seqs != [] {
      StepUpToZeros(m, n, seqs[0]);
      RunUpToZeros(Apply(m, seqs[0]).modes, Apply(n, seqs[0]).modes, seqs[1..]);
    }
  }
}
