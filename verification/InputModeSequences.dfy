/** The control sequences the input-mode tracker recognises, and two readings of a text:
    the tracker's own (search for the leftmost complete sequence, then keep an unfinished
    introducer), and a reference automaton that looks at one character at a time. */
module InputModeSequences {
  import opened Options
  import opened Text

  const ESC: char := '\U{1b}'
  const INTRODUCER: string := [ESC, '[']

  // ----- Sequences and the pattern that finds them -----

  /** One match of the tracker's pattern: `ESC [ prefix params final`. */
  datatype Sequence = Sequence(prefix: string, params: string, final: char) {
    predicate WellFormed() {
      && IsPrefix(prefix)
      && AllParams(params)
      && IsFinal(prefix, final)
    }

    function Render(): string {
      INTRODUCER + prefix + params + [final]
    }
  }

  predicate IsPrefixChar(c: char) {
    c == '<' || c == '>' || c == '=' || c == '?'
  }

  predicate IsPrefix(s: string) {
    s == "" || (|s| == 1 && IsPrefixChar(s[0]))
  }

  predicate IsParam(c: char) {
    IsDigit(c) || c == ';'
  }

  predicate AllParams(s: string) {
    forall i | 0 <= i < |s| :: IsParam(s[i])
  }

  predicate IsFinal(prefix: string, c: char) {
    c == 'u' || (prefix == "?" && (c == 'h' || c == 'l'))
  }

  function PrefixLength(body: string): (n: nat)
    ensures n <= |body| && n <= 1
  {
    if body != "" && IsPrefixChar(body[0]) then 1 else 0
  }

  /** Where the longest run of parameter characters from position `i` ends. */
  function ParamEnd(s: string, i: nat): (e: nat)
    requires i <= |s|
    ensures i <= e <= |s|
    ensures forall k | i <= k < e :: IsParam(s[k])
    ensures e < |s| ==> !IsParam(s[e])
    decreases |s| - i
  {
    if i < |s| && IsParam(s[i]) then ParamEnd(s, i + 1) else i
  }

  predicate StartsSequence(s: string) {
    |s| >= 2 && s[0] == ESC && s[1] == '['
  }

  /** The pattern after its introducer. */
  function MatchBody(body: string): (r: Option<Sequence>)
  {
    var p := PrefixLength(body);
    var e := ParamEnd(body, p);
    if e < |body| && IsFinal(body[..p], body[e])
    then Some(Sequence(body[..p], body[p..e], body[e]))
    else None
  }

  /** The pattern anchored at the start of `text`. */
  function MatchHere(text: string): (r: Option<Sequence>)
  {
    if StartsSequence(text) then MatchBody(text[2..]) else None
  }

  lemma MatchBodySound(body: string)
    requires MatchBody(body).Some?
    ensures var sq := MatchBody(body).value;
            sq.WellFormed() && sq.prefix + sq.params + [sq.final] <= body
  {
    var sq := MatchBody(body).value;
    var e := ParamEnd(body, PrefixLength(body));
    assert body[..e + 1] == sq.prefix + sq.params + [sq.final];
  }

  lemma MatchBodyComplete(sq: Sequence, rest: string)
    requires sq.WellFormed()
    ensures MatchBody(sq.prefix + (sq.params + ([sq.final] + rest))) == Some(sq)
  {
    var (p, e) := (|sq.prefix|, |sq.prefix| + |sq.params|);
    var body := sq.prefix + (sq.params + ([sq.final] + rest));
    assert body[..p] == sq.prefix && body[p..e] == sq.params && body[e] == sq.final;
    assert forall k | p <= k < e :: body[k] == sq.params[k - p];
    assert PrefixLength(body) == p;
    assert ParamEnd(body, p) == e;
  }

  lemma SliceConcat(a: string, b: string)
    ensures (a + b)[..|a|] == a && (a + b)[|a|..] == b
  {
  }

  /** The anchored pattern recognises exactly the rendered well-formed sequences,
      and at most one of them starts at a given place. */
  lemma MatchHereIsRendered(text: string, sq: Sequence)
    ensures MatchHere(text) == Some(sq) <==> sq.WellFormed() && sq.Render() <= text
  {
    hide MatchBody;
    assert sq.Render() == INTRODUCER + (sq.prefix + sq.params + [sq.final]);
    if MatchHere(text) == Some(sq) {
      MatchBodySound(text[2..]);
      assert text == INTRODUCER + text[2..];
    }
    if sq.WellFormed() && sq.Render() <= text {
      var rest := text[|sq.Render()|..];
      assert text == sq.Render() + rest;
      MatchBodyComplete(sq, rest);
      assert text[2..] == sq.prefix + (sq.params + ([sq.final] + rest));
    }
  }

  /** The same, character by character. */
  lemma PatternIs(text: string, sq: Sequence)
    ensures MatchHere(text) == Some(sq)
            <==> && sq.prefix in {"", "<", ">", "=", "?"}
                 && (forall i | 0 <= i < |sq.params| :: sq.params[i] in "0123456789;")
                 && (sq.final == 'u' || (sq.prefix == "?" && (sq.final == 'h' || sq.final == 'l')))
                 && "\U{1b}[" + sq.prefix + sq.params + [sq.final] <= text
  {
    MatchHereIsRendered(text, sq);
    hide MatchHere;
    assert |sq.prefix| == 1 ==> sq.prefix == [sq.prefix[0]];
    assert IsPrefix(sq.prefix) <==> sq.prefix in {"", "<", ">", "=", "?"};
  }

  lemma MatchLength(text: string)
    requires MatchHere(text).Some?
    ensures 3 <= |MatchHere(text).value.Render()| <= |text|
  {
    MatchHereIsRendered(text, MatchHere(text).value);
  }

  /** The leftmost match, as the pattern's global search finds it. */
  function FirstMatch(text: string): (r: Option<(nat, Sequence)>)
    ensures r.Some? ==> r.value.0 < |text| && MatchHere(text[r.value.0..]) == Some(r.value.1)
  {
    if text == "" then None
    else
      assert text[0..] == text;
      match MatchHere(text)
      case Some(sq) => Some((0, sq))
      case None =>
        match FirstMatch(text[1..])
        case None => None
        case Some((i, sq)) =>
          assert text[1..][i..] == text[i + 1..];
          Some((i + 1, sq))
  }

  lemma {:induction false} FirstMatchIsLeftmost(text: string)
    ensures var r := FirstMatch(text);
            forall k | 0 <= k < (if r.Some? then r.value.0 else |text| + 1) :: MatchHere(text[k..]).None?
  {
    assert text[0..] == text;
    if text != "" {
      FirstMatchIsLeftmost(text[1..]);
      forall k | 1 <= k <= |text|
        ensures text[1..][k - 1..] == text[k..]
      {
      }
    }
  }

  lemma {:induction false} NoMatchAnywhere(text: string)
    requires forall k | 0 <= k <= |text| :: MatchHere(text[k..]).None?
    ensures FirstMatch(text).None?
  {
    assert text[0..] == text;
    if text != "" {
      forall k | 0 <= k <= |text[1..]|
        ensures MatchHere(text[1..][k..]).None?
      {
        assert text[1..][k..] == text[k + 1..];
      }
      NoMatchAnywhere(text[1..]);
    }
  }

  // ----- The tracker's reading -----

  datatype Tokens = Tokens(seqs: seq<Sequence>, tail: string)

  /** All matches of the global search, and what follows the last of them. */
  function Tokenize(text: string): Tokens
    decreases |text|
  {
    match FirstMatch(text)
    case None => Tokens([], text)
    case Some((i, sq)) =>
      MatchLength(text[i..]);
      var rest := Tokenize(text[i + |sq.Render()|..]);
      Tokens([sq] + rest.seqs, rest.tail)
  }

  lemma TokenizeStep(text: string, i: nat, sq: Sequence)
    requires FirstMatch(text) == Some((i, sq))
    ensures 3 <= |sq.Render()| <= |text| - i
    ensures Tokenize(text).seqs == [sq] + Tokenize(text[i + |sq.Render()|..]).seqs
    ensures Tokenize(text).tail == Tokenize(text[i + |sq.Render()|..]).tail
  {
    hide MatchHere, FirstMatch, Sequence.Render;
    MatchLength(text[i..]);
  }

  lemma TokenizeEnd(text: string)
    requires FirstMatch(text).None?
    ensures Tokenize(text) == Tokens([], text)
  {
    hide FirstMatch;
  }

  /** A search that has consumed `consumed` characters of `text` and found `done` in them. */
  ghost predicate Scanned(text: string, consumed: nat, done: seq<Sequence>)
    requires consumed <= |text|
  {
    && Tokenize(text).seqs == done + Tokenize(text[consumed..]).seqs
    && Tokenize(text).tail == Tokenize(text[consumed..]).tail
  }

  lemma ScanStep(text: string, consumed: nat, done: seq<Sequence>, start: nat, sq: Sequence)
    requires consumed <= |text| && Scanned(text, consumed, done)
    requires FirstMatch(text[consumed..]) == Some((start, sq))
    ensures var next := consumed + start + |sq.Render()|;
            consumed < next <= |text| && Scanned(text, next, done + [sq])
  {
    hide Tokenize, FirstMatch, Sequence.Render;
    var rest := text[consumed..];
    TokenizeStep(rest, start, sq);
    assert rest[start + |sq.Render()|..] == text[consumed + start + |sq.Render()|..];
  }

  lemma ScanStart(text: string)
    ensures Scanned(text, 0, [])
  {
    hide Tokenize;
    assert text[0..] == text;
    assert [] + Tokenize(text).seqs == Tokenize(text).seqs;
  }

  predicate IntroducerAt(text: string, k: nat) {
    k + 1 < |text| && text[k] == ESC && text[k + 1] == '['
  }

  /** `text.lastIndexOf` for the introducer, among the first `n` positions. */
  function LastIntroducer(text: string, n: nat): (k: int)
    ensures -1 <= k < n
    ensures k >= 0 ==> IntroducerAt(text, k)
    ensures forall j | k < j < n :: !IntroducerAt(text, j)
  {
    if n == 0 then -1
    else if IntroducerAt(text, n - 1) then n - 1
    else LastIntroducer(text, n - 1)
  }

  /** The whole of `s` is an introducer, an optional prefix and parameters. */
  predicate Unfinished(s: string) {
    && StartsSequence(s)
    && var body := s[2..];
       var p := PrefixLength(body);
       ParamEnd(body, p) == |body|
  }

  /** The pattern for an incomplete sequence: anchored at the end only. */
  predicate EndsUnfinished(text: string) {
    exists k | 0 <= k <= |text| :: Unfinished(text[k..])
  }

  /** What `feed` keeps of the text after the last complete sequence. */
  function Pending(tail: string): string
  {
    var k := LastIntroducer(tail, |tail|);
    if k >= 0 && EndsUnfinished(tail[k..]) then tail[k..] else ""
  }

  // ----- The reference automaton -----

  datatype Auto = Ground | Escape | Csi(prefix: string, params: string) {
    predicate WellFormed() {
      Csi? ==> IsPrefix(prefix) && AllParams(params)
    }

    /** The characters read since the automaton last was in its ground state. */
    function Read(): string {
      match this
      case Ground => ""
      case Escape => [ESC]
      case Csi(prefix, params) => INTRODUCER + prefix + params
    }

    /** A lone ESC is not remembered between two feeds. */
    function Forget(): Auto {
      if Escape? then Ground else this
    }
  }

  function Restart(c: char): Auto {
    if c == ESC then Escape else Ground
  }

  function Next(q: Auto, c: char): (Auto, seq<Sequence>)
  {
    match q
    case Ground => (Restart(c), [])
    case Escape => (if c == '[' then Csi("", "") else Restart(c), [])
    case Csi(prefix, params) =>
      if prefix == "" && params == "" && IsPrefixChar(c) then (Csi([c], ""), [])
      else if IsParam(c) then (Csi(prefix, params + [c]), [])
      else if IsFinal(prefix, c) then (Ground, [Sequence(prefix, params, c)])
      else (Restart(c), [])
  }

  /** Reads `text` one character at a time from state `q`. */
  function ReadAll(text: string, q: Auto): (Auto, seq<Sequence>)
  {
    if text == "" then (q, [])
    else
      var (q1, out) := Next(q, text[0]);
      var (q2, more) := ReadAll(text[1..], q1);
      (q2, out + more)
  }

  lemma {:induction false} ReadAllConcat(a: string, b: string, q: Auto)
    ensures var (q1, s1) := ReadAll(a, q);
            var (q2, s2) := ReadAll(b, q1);
            ReadAll(a + b, q) == (q2, s1 + s2)
  {
    if a == "" {
      assert a + b == b;
      assert [] + ReadAll(b, q).1 == ReadAll(b, q).1;
    } else {
      var (q1, out) := Next(q, a[0]);
      ReadAllConcat(a[1..], b, q1);
      assert (a + b)[0] == a[0] && (a + b)[1..] == a[1..] + b;
      var (q2, s1) := ReadAll(a[1..], q1);
      var s2 := ReadAll(b, q2).1;
      assert out + (s1 + s2) == (out + s1) + s2;
    }
  }

  lemma {:induction false} ReadAllWellFormed(text: string, q: Auto)
    requires q.WellFormed()
    ensures ReadAll(text, q).0.WellFormed()
    ensures forall sq | sq in ReadAll(text, q).1 :: sq.WellFormed()
    ensures text != "" ==> (ReadAll(text, q).0.Escape? <==> text[|text| - 1] == ESC)
  {
    if text != "" {
      var (q1, out) := Next(q, text[0]);
      ReadAllWellFormed(text[1..], q1);
    }
  }

  // ----- The two readings agree -----

  lemma UnfinishedIsRead(s: string)
    ensures Unfinished(s) <==> exists q: Auto :: q.Csi? && q.WellFormed() && q.Read() == s
  {
    if Unfinished(s) {
      var body := s[2..];
      var p := PrefixLength(body);
      var q := Csi(body[..p], body[p..]);
      assert s == INTRODUCER + body == q.Read();
      assert q.WellFormed();
    }
    forall q: Auto | q.Csi? && q.WellFormed() && q.Read() == s
      ensures Unfinished(s)
    {
      CsiReadIsUnfinished(q);
    }
  }

  lemma CsiReadIsUnfinished(q: Auto)
    requires q.Csi? && q.WellFormed()
    ensures Unfinished(q.Read())
  {
    var body := q.Read()[2..];
    var p := |q.prefix|;
    assert body == q.prefix + q.params;
    assert forall k | p <= k < |body| :: body[k] == q.params[k - p];
    assert PrefixLength(body) == p;
  }

  /** An unfinished sequence holds no second ESC, so it starts at the last introducer. */
  lemma UnfinishedHasOneEscape(s: string)
    requires Unfinished(s)
    ensures forall i | 1 <= i < |s| :: s[i] != ESC
  {
    var body := s[2..];
    assert forall i | 2 <= i < |s| :: s[i] == body[i - 2];
  }

  /** `Pending` keeps the one suffix that is an unfinished sequence, if there is one. */
  lemma PendingIsUnfinishedSuffix(tail: string, k: nat)
    requires k <= |tail| && Unfinished(tail[k..])
    ensures Pending(tail) == tail[k..]
  {
    var last := LastIntroducer(tail, |tail|);
    UnfinishedHasOneEscape(tail[k..]);
    assert forall i | k < i < |tail| :: tail[i] == tail[k..][i - k];
    assert IntroducerAt(tail, k);
    assert last == k;
    assert tail[k..][0..] == tail[k..];
  }

  lemma NoPending(tail: string)
    requires forall k | 0 <= k <= |tail| :: !Unfinished(tail[k..])
    ensures Pending(tail) == ""
  {
    var last := LastIntroducer(tail, |tail|);
    if last >= 0 {
      forall k | 0 <= k <= |tail[last..]|
        ensures !Unfinished(tail[last..][k..])
      {
        assert tail[last..][k..] == tail[last + k..];
      }
    }
  }

  /** Neither a complete nor an unfinished sequence starts within the first `n` characters. */
  predicate DeadPrefix(text: string, n: nat)
    requires n <= |text|
  {
    forall k | 0 <= k < n :: MatchHere(text[k..]).None? && !Unfinished(text[k..])
  }

  lemma {:induction false} DropDeadPrefix(text: string, n: nat)
    requires n <= |text| && DeadPrefix(text, n)
    ensures Tokenize(text).seqs == Tokenize(text[n..]).seqs
    ensures Pending(Tokenize(text).tail) == Pending(Tokenize(text[n..]).tail)
    decreases n
  {
    hide MatchHere, Unfinished, Tokenize, Pending;
    assert text[0..] == text;
    if n > 0 {
      var rest := text[1..];
      assert forall k | 0 <= k < n :: rest[k..] == text[k + 1..];
      assert rest[n - 1..] == text[n..];
      DropDeadPrefix(rest, n - 1);
      DropDeadChar(text);
    }
  }

  lemma DropDeadChar(text: string)
    requires text != "" && DeadPrefix(text, 1)
    ensures Tokenize(text).seqs == Tokenize(text[1..]).seqs
    ensures Pending(Tokenize(text).tail) == Pending(Tokenize(text[1..]).tail)
  {
    hide FirstMatch, Tokenize, Pending, DeadPrefix;
    var rest := text[1..];
    FirstMatchAfterDeadChar(text);
    if FirstMatch(rest).Some? {
      var (i, sq) := FirstMatch(rest).value;
      SameTokensAfterShift(text, rest, i, sq);
    } else {
      TokenizeEnd(rest);
      TokenizeEnd(text);
      PendingAfterDeadChar(text);
    }
  }

  lemma SameTokensAfterShift(text: string, rest: string, i: nat, sq: Sequence)
    requires text != "" && rest == text[1..]
    requires FirstMatch(rest) == Some((i, sq)) && FirstMatch(text) == Some((i + 1, sq))
    ensures Tokenize(text) == Tokenize(rest)
  {
    hide FirstMatch, Tokenize, Sequence.Render;
    TokenizeStep(rest, i, sq);
    TokenizeStep(text, i + 1, sq);
    var n := i + |sq.Render()|;
    assert rest[n..] == text[n + 1..];
  }

  lemma FirstMatchAfterDeadChar(text: string)
    requires text != "" && DeadPrefix(text, 1)
    ensures FirstMatch(text[1..]).None? ==> FirstMatch(text).None?
    ensures FirstMatch(text[1..]).Some? ==>
              FirstMatch(text) == Some((FirstMatch(text[1..]).value.0 + 1, FirstMatch(text[1..]).value.1))
  {
    hide MatchHere, Unfinished;
    assert text[0..] == text;
  }

  lemma PendingAfterDeadChar(text: string)
    requires text != "" && DeadPrefix(text, 1)
    ensures Pending(text) == Pending(text[1..])
  {
    var rest := text[1..];
    assert forall k | 0 <= k <= |rest| :: rest[k..] == text[k + 1..];
    if k :| 0 <= k <= |rest| && Unfinished(rest[k..]) {
      PendingIsUnfinishedSuffix(rest, k);
      PendingIsUnfinishedSuffix(text, k + 1);
    } else {
      forall k | 0 <= k <= |text|
        ensures !Unfinished(text[k..])
      {
        if k > 0 { assert text[k..] == rest[k - 1..]; }
      }
      NoPending(rest);
      NoPending(text);
    }
  }

  lemma NoFinalNoMatch(text: string)
    requires forall i | 2 <= i < |text| :: text[i] != 'u' && text[i] != 'h' && text[i] != 'l'
    ensures MatchHere(text).None?
  {
    if StartsSequence(text) {
      var body := text[2..];
      var p := PrefixLength(body);
      var e := ParamEnd(body, p);
      assert e < |body| ==> body[e] == text[2 + e];
    }
  }

  /** Tokens of a text that is exactly what the automaton has read so far. */
  lemma TokenizeRead(q: Auto)
    requires q.WellFormed()
    ensures Tokenize(q.Read()).seqs == []
    ensures Pending(Tokenize(q.Read()).tail) == q.Forget().Read()
  {
    var text := q.Read();
    forall k | 0 <= k <= |text|
      ensures MatchHere(text[k..]).None?
    {
      NoFinalNoMatch(text[k..]);
    }
    NoMatchAnywhere(text);
    if q.Csi? {
      UnfinishedIsRead(text);
      assert text[0..] == text;
      PendingIsUnfinishedSuffix(text, 0);
    } else {
      forall k | 0 <= k <= |text|
        ensures !Unfinished(text[k..])
      {
      }
      NoPending(text);
    }
  }

  lemma AbandonedBody(prefix: string, params: string, c: char, rest: string)
    requires IsPrefix(prefix) && AllParams(params)
    requires !(prefix == "" && params == "" && IsPrefixChar(c)) && !IsParam(c) && !IsFinal(prefix, c)
    ensures var body := prefix + (params + ([c] + rest));
            MatchBody(body).None? && ParamEnd(body, PrefixLength(body)) < |body|
  {
    var (p, e) := (|prefix|, |prefix| + |params|);
    var body := prefix + (params + ([c] + rest));
    assert body[..p] == prefix && body[e] == c;
    assert forall k | p <= k < e :: body[k] == params[k - p];
    assert PrefixLength(body) == p;
    assert ParamEnd(body, p) == e;
  }

  lemma AbandonedStart(q: Auto, c: char, rest: string)
    requires q.Csi? && q.WellFormed() && Next(q, c) == (Restart(c), [])
    ensures var text := q.Read() + [c] + rest;
            MatchHere(text).None? && !Unfinished(text)
  {
    var text := q.Read() + [c] + rest;
    var body := q.prefix + (q.params + ([c] + rest));
    AbandonedBody(q.prefix, q.params, c, rest);
    hide MatchBody, ParamEnd, PrefixLength, Auto.WellFormed, Next;
    Regroup(INTRODUCER, q.prefix, q.params, [c], rest);
    SliceConcat(INTRODUCER, body);
  }

  lemma Regroup(a: string, b: string, c: string, d: string, e: string)
    ensures a + b + c + d + e == a + (b + (c + (d + e)))
  {
  }

  lemma ReadHasOneEscape(q: Auto)
    requires q.WellFormed()
    ensures forall i | 1 <= i < |q.Read()| :: q.Read()[i] != ESC
  {
    if q.Csi? {
      var rest := q.prefix + q.params;
      assert forall i | 0 <= i < |rest| :: rest[i] != ESC;
      assert q.Read() == INTRODUCER + rest;
    }
  }

  /** When the automaton gives up on what it has read, so does the search. */
  lemma AbandonedIsDead(q: Auto, c: char, rest: string)
    requires q.WellFormed() && Next(q, c) == (Restart(c), [])
    ensures DeadPrefix(q.Read() + [c] + rest, |q.Read()| + 1 - |Restart(c).Read()|)
  {
    var text := q.Read() + [c] + rest;
    var n := |q.Read()| + 1 - |Restart(c).Read()|;
    ReadHasOneEscape(q);
    if q.Csi? {
      AbandonedStart(q, c, rest);
      assert text[0..] == text;
    }
    hide MatchBody, ParamEnd, PrefixLength, Auto.WellFormed;
    assert forall k | 1 <= k < n :: text[k] != ESC;
    assert q.Escape? && n > 0 ==> text[1] == c;
  }

  lemma TokenizeFromMatch(sq: Sequence, rest: string)
    requires sq.WellFormed()
    ensures Tokenize(sq.Render() + rest) == Tokens([sq] + Tokenize(rest).seqs, Tokenize(rest).tail)
  {
    var whole := sq.Render() + rest;
    MatchHereIsRendered(whole, sq);
    assert whole[0..] == whole;
    assert FirstMatch(whole) == Some((0, sq));
    assert whole[|sq.Render()|..] == rest;
  }

  lemma StepAgrees(q: Auto, c: char, rest: string)
    requires q.WellFormed()
    ensures var (q1, out) := Next(q, c);
            && Tokenize(q.Read() + [c] + rest).seqs == out + Tokenize(q1.Read() + rest).seqs
            && Pending(Tokenize(q.Read() + [c] + rest).tail) == Pending(Tokenize(q1.Read() + rest).tail)
  {
    hide Tokenize, Pending;
    var whole := q.Read() + [c] + rest;
    var (q1, out) := Next(q, c);
    if out != [] {
      var sq := out[0];
      assert sq.Render() == q.Read() + [c];
      TokenizeFromMatch(sq, rest);
      assert q1.Read() + rest == rest;
    } else if q1.Read() == q.Read() + [c] {
      assert q1.Read() + rest == whole;
    } else {
      var n := |q.Read()| + 1 - |q1.Read()|;
      AbandonedIsDead(q, c, rest);
      DropDeadPrefix(whole, n);
      assert whole[n..] == q1.Read() + rest;
    }
  }

  /** Searching the kept text together with new text finds what the automaton finds in the
      new text, in the same order, and keeps what the automaton has read (but a lone ESC). */
  lemma {:induction false} TokenizeIsReadAll(q: Auto, text: string)
    requires q.WellFormed()
    ensures var (q', seqs) := ReadAll(text, q);
            && Tokenize(q.Read() + text).seqs == seqs
            && Pending(Tokenize(q.Read() + text).tail) == q'.Forget().Read()
    decreases text
  {
    hide Tokenize, Pending;
    if text == "" {
      assert q.Read() + text == q.Read();
      TokenizeRead(q);
    } else {
      var c := text[0];
      var rest := text[1..];
      assert q.Read() + text == q.Read() + [c] + rest;
      StepAgrees(q, c, rest);
      TokenizeIsReadAll(Next(q, c).0, rest);
    }
  }
}
