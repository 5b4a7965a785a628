/** The terminal input-mode tracker: an incremental reader of terminal output, fed in
    arbitrary chunks, that follows the keyboard flags and three private modes. */
module TerminalInputMode {
  import opened Options
  import opened Text
  import opened InputModeSequences
  import opened InputModes
  import opened InputModeFeeds

  class TerminalInputModeTracker {
    var kittyKeyboardFlags: nat
    var win32InputMode: bool
    var applicationCursorKeys: bool
    var bracketedPaste: bool
    var kittyKeyboardStack: seq<nat>
    var pending: string

    ghost function CurrentModes(): Modes
      reads this
    {
      Modes(kittyKeyboardFlags, win32InputMode, applicationCursorKeys, bracketedPaste, kittyKeyboardStack)
    }

    ghost function Contents(): Memory
      reads this
    {
      Memory(CurrentModes(), pending)
    }

    constructor ()
      ensures Contents() == FRESH_MEMORY
    {
      kittyKeyboardFlags, kittyKeyboardStack := 0, [];
      win32InputMode, applicationCursorKeys, bracketedPaste := false, false, false;
      pending := "";
    }

    method Feed(data: string) returns (changed: bool, responses: seq<string>)
      modifies this
      ensures FeedResult(Contents(), changed, responses) == FeedOne(old(Contents()), data)
    {
      hide Tokenize, MatchHere, FirstMatch, LastIntroducer, ApplyAll, Sequence.Render;
      changed, responses := false, [];
      if |data| == 0 {
        return;
      }
      var text := pending + data;
      pending := "";
      var consumedUntil := 0;
      ghost var before, done := CurrentModes(), [];
      ScanStart(text);
      ApplyNone(before);
      while true
        invariant 0 <= consumedUntil <= |text| && pending == ""
        invariant Scanned(text, consumedUntil, done)
        invariant ApplyAll(before, done) == Effect(CurrentModes(), changed, responses)
        decreases |text| - consumedUntil
      {
        var found := FirstMatch(text[consumedUntil..]);
        if found.None? {
          TokenizeEnd(text[consumedUntil..]);
          break;
        }
        var (start, sq) := found.value;
        ScanStep(text, consumedUntil, done, start, sq);
        ApplyOneMore(before, done, sq);
        done := done + [sq];
        consumedUntil := consumedUntil + start + |sq.Render()|;
        if sq.final != 'u' {
          var modeChanged := ApplyPrivateModeSequence(sq.params, sq.final);
          changed := modeChanged || changed;
        } else {
          var kittyChanged, answers := ApplyKittyKeyboardSequence(sq.prefix, sq.params);
          changed := changed || kittyChanged;
          responses := responses + answers;
        }
      }
      var tail := text[consumedUntil..];
      var pendingStart := LastIntroducer(tail, |tail|);
      if pendingStart >= 0 {
        if EndsUnfinished(tail[pendingStart..]) {
          pending := tail[pendingStart..];
        }
      }
      assert done + [] == done;
    }

    method Reset()
      modifies this
      ensures Contents() == FRESH_MEMORY
    {
      kittyKeyboardFlags := 0;
      win32InputMode, applicationCursorKeys, bracketedPaste := false, false, false;
      kittyKeyboardStack := [];
      pending := "";
    }

    method GetPreamble() returns (preamble: string)
      ensures preamble == Preamble(CurrentModes())
    {
      var parts: seq<string> := [];
      if kittyKeyboardFlags > 0 {
        parts := parts + [INTRODUCER + "=" + Decimal(kittyKeyboardFlags) + ";1u"];
      }
      if win32InputMode {
        parts := parts + [INTRODUCER + "?9001h"];
      }
      if applicationCursorKeys {
        parts := parts + [INTRODUCER + "?1h"];
      }
      if bracketedPaste {
        parts := parts + [INTRODUCER + "?2004h"];
      }
      assert parts == PreambleParts(CurrentModes());
      preamble := Concat(parts);
    }

    method ApplyKittyKeyboardSequence(prefix: string, params: string)
      returns (changed: bool, responses: seq<string>)
      modifies this`kittyKeyboardFlags, this`kittyKeyboardStack
      ensures Effect(CurrentModes(), changed, responses) == ApplyKitty(old(CurrentModes()), prefix, params)
    {
      var previousFlags := kittyKeyboardFlags;
      if prefix == ">" {
        kittyKeyboardStack := kittyKeyboardStack + [kittyKeyboardFlags];
        kittyKeyboardFlags := GetOr(NumeralAt(params, 0), 1);
      } else if prefix == "=" {
        var mode := GetOr(NumeralAt(params, 1), 1);
        kittyKeyboardFlags := if mode == 0 then 0 else GetOr(NumeralAt(params, 0), 0);
      } else if prefix == "<" {
        var first := GetOr(NumeralAt(params, 0), 1);
        var count := if first < 1 then 1 else first;
        for index := 0 to count
          invariant CurrentModes() == Pop(old(CurrentModes()), index)
        {
          var depth := |kittyKeyboardStack|;
          if depth > 0 {
            kittyKeyboardFlags := kittyKeyboardStack[depth - 1];
            kittyKeyboardStack := kittyKeyboardStack[..depth - 1];
          } else {
            kittyKeyboardFlags := 0;
          }
        }
      } else if prefix == "?" {
        return false, [INTRODUCER + "?" + Decimal(kittyKeyboardFlags) + "u"];
      } else {
        return false, [];
      }
      return kittyKeyboardFlags != previousFlags, [];
    }

    method ApplyPrivateModeSequence(params: string, final: char) returns (changed: bool)
      modifies this`win32InputMode, this`applicationCursorKeys, this`bracketedPaste
      ensures Effect(CurrentModes(), changed, []) == ApplyPrivate(old(CurrentModes()), params, final == 'h')
    {
      var modes := ParsePrivateModeParams(params);
      changed := false;
      if WIN32_INPUT_MODE in modes {
        var previous := win32InputMode;
        win32InputMode := final == 'h';
        changed := win32InputMode != previous || changed;
      }
      if APPLICATION_CURSOR_KEYS_MODE in modes {
        var previous := applicationCursorKeys;
        applicationCursorKeys := final == 'h';
        changed := applicationCursorKeys != previous || changed;
      }
      if BRACKETED_PASTE_MODE in modes {
        var previous := bracketedPaste;
        bracketedPaste := final == 'h';
        changed := bracketedPaste != previous || changed;
      }
    }
  }

  method ParsePrivateModeParams(params: string) returns (modes: set<nat>)
    ensures modes == NumeralsOf(Split(params, ';'))
  {
    var pieces := Split(params, ';');
    modes := {};
    for i := 0 to |pieces|
      invariant modes == set j | 0 <= j < i && IsNumeral(pieces[j]) :: ParseDecimal(pieces[j])
    {
      if IsNumeral(pieces[i]) {
        modes := modes + {ParseDecimal(pieces[i])};
      }
    }
  }
}
