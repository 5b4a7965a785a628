/** The syntax highlighter: styled spans are painted on a map of the characters, and every line is
    cut into its runs of equal style. The parser is outside: a file may have none, and otherwise it
    yields a list of spans in painting order. */
module Highlighter {
  import opened Options
  import opened Text

  type Style = Option<string>

  datatype Token = Token(text: string, style: Style)

  datatype Span = Span(from: nat, to: nat, name: string)

  // ----- What the highlighting means -----

  /** The style of the last span that covers an offset. */
  function StyleAt(spans: seq<Span>, offset: nat): Style
  {
    if spans == [] then None
    else
      var last := spans[|spans| - 1];
      if last.from <= offset < last.to then Some(last.name) else StyleAt(spans[..|spans| - 1], offset)
  }

  function StylesFrom(spans: seq<Span>, offset: nat, n: nat): seq<Style> {
    seq(n, k requires 0 <= k < n => StyleAt(spans, offset + k))
  }

  /** Where a line starts in the text. */
  function LineStart(lines: seq<string>, i: nat): nat
    requires i <= |lines|
  {
    if i == 0 then 0 else LineStart(lines, i - 1) + |lines[i - 1]| + 1
  }

  function Texts(tokens: seq<Token>): string
  {
    if tokens == [] then "" else Texts(tokens[..|tokens| - 1]) + tokens[|tokens| - 1].text
  }

  /** The style of every character of the tokens. */
  function Painted(tokens: seq<Token>): seq<Style>
  {
    if tokens == [] then []
    else
      var last := tokens[|tokens| - 1];
      Painted(tokens[..|tokens| - 1]) + seq(|last.text|, _ => last.style)
  }

  /** The tokens spell the text, give every character its style, are not empty, and neighbours differ. */
  ghost predicate Tokenises(text: string, styles: seq<Style>, tokens: seq<Token>) {
    && Texts(tokens) == text
    && Painted(tokens) == styles
    && (forall i | 0 <= i < |tokens| :: tokens[i].text != "")
    && (forall i | 0 < i < |tokens| :: tokens[i - 1].style != tokens[i].style)
  }

  /** An empty line is one empty unstyled token. */
  ghost predicate Highlights(line: string, styles: seq<Style>, tokens: seq<Token>) {
    if line == "" then tokens == [Token("", None)] else Tokenises(line, styles, tokens)
  }

  lemma {:induction false} PaintedLength(tokens: seq<Token>)
    ensures |Painted(tokens)| == |Texts(tokens)|
  {
    if tokens != [] {
      PaintedLength(tokens[..|tokens| - 1]);
    }
  }

  /** The last token is the longest run of its style at the end of the text. */
  lemma LastRun(tokens: seq<Token>, text: string, styles: seq<Style>)
    requires Tokenises(text, styles, tokens) && tokens != []
    ensures var last := tokens[|tokens| - 1];
            var start := |text| - |last.text|;
            && |styles| == |text| && 0 <= start < |text|
            && text[start..] == last.text
            && (forall k | start <= k < |text| :: styles[k] == last.style)
            && (start > 0 ==> |tokens| > 1 && styles[start - 1] != last.style)
            && (start == 0 ==> |tokens| == 1)
            && Tokenises(text[..start], styles[..start], tokens[..|tokens| - 1])
  {
    var n := |tokens| - 1;
    var last := tokens[n];
    var before := tokens[..n];
    PaintedLength(before);
    PaintedLength(tokens);
    var start := |text| - |last.text|;
    assert text[..start] == Texts(before);
    assert styles[..start] == Painted(before);
    if n > 0 {
      var previous := before[n - 1];
      PaintedLength(before[..n - 1]);
      assert previous.text != "" && previous.style != last.style;
      assert Painted(before)[start - 1] == previous.style;
    }
  }

  /** A text has one tokenisation at most. */
  lemma {:induction false} TokensAreUnique(text: string, styles: seq<Style>, a: seq<Token>, b: seq<Token>)
    requires Tokenises(text, styles, a) && Tokenises(text, styles, b)
    ensures a == b
  {
    if a == [] || b == [] {
      if a != [] {
        LastRun(a, text, styles);
      }
      if b != [] {
        LastRun(b, text, styles);
      }
    } else {
      LastRun(a, text, styles);
      LastRun(b, text, styles);
      var p, q := |text| - |a[|a| - 1].text|, |text| - |b[|b| - 1].text|;
      assert styles[|text| - 1] == a[|a| - 1].style == b[|b| - 1].style;
      assert p == q;
      TokensAreUnique(text[..p], styles[..p], a[..|a| - 1], b[..|b| - 1]);
      assert a == a[..|a| - 1] + [a[|a| - 1]] && b == b[..|b| - 1] + [b[|b| - 1]];
    }
  }

  // ----- Painting -----

  method BuildStyleMap(length: nat, spans: seq<Span>) returns (styleMap: array<Style>)
    ensures fresh(styleMap) && styleMap[..] == StylesFrom(spans, 0, length)
  {
    styleMap := new Style[length](_ => None);
    for s := 0 to |spans|
      invariant forall p | 0 <= p < length :: styleMap[p] == StyleAt(spans[..s], p)
    {
      var span := spans[s];
      assert spans[..s + 1][..s] == spans[..s];
      var i := span.from;
      while i < span.to && i < length
        invariant span.from <= i
        invariant forall p | 0 <= p < length ::
          styleMap[p] == if span.from <= p < i && p < span.to then Some(span.name) else StyleAt(spans[..s], p)
        decreases length - i
      {
        styleMap[i] := Some(span.name);
        i := i + 1;
      }
    }
    assert spans[..|spans|] == spans;
  }

  // ----- Cutting a line into runs -----

  /** The unfinished token joins the finished ones. */
  lemma GrowLast(text: string, styles: seq<Style>, done: seq<Token>, current: Token, c: char)
    requires Tokenises(text, styles, done + [current])
    ensures Tokenises(text + [c], styles + [current.style], done + [Token(current.text + [c], current.style)])
  {
    var grown := Token(current.text + [c], current.style);
    assert (done + [current])[..|done|] == done;
    assert (done + [grown])[..|done|] == done;
    var n := |current.text|;
    assert seq(n + 1, _ => current.style) == seq(n, _ => current.style) + [current.style];
  }

  lemma StartNext(text: string, styles: seq<Style>, done: seq<Token>, c: char, style: Style)
    requires Tokenises(text, styles, done)
    requires done != [] ==> done[|done| - 1].style != style
    ensures Tokenises(text + [c], styles + [style], done + [Token([c], style)])
  {
    var next := Token([c], style);
    assert (done + [next])[..|done|] == done;
    assert seq(1, _ => style) == [style];
  }

  method TokeniseLine(line: string, styleMap: array<Style>, pos: nat) returns (tokens: seq<Token>)
    requires line != "" && pos + |line| <= styleMap.Length
    ensures Tokenises(line, styleMap[pos..pos + |line|], tokens)
  {
    tokens := [];
    var current := Token("", styleMap[pos]);
    for i := 0 to |line|
      invariant i == 0 ==> tokens == [] && current == Token("", styleMap[pos])
      invariant i > 0 ==> current.text != "" && Tokenises(line[..i], styleMap[pos..pos + i], tokens + [current])
    {
      var charStyle := styleMap[pos + i];
      assert line[..i + 1] == line[..i] + [line[i]];
      assert styleMap[pos..pos + i + 1] == styleMap[pos..pos + i] + [charStyle];
      if i == 0 {
        StartNext("", [], [], line[i], charStyle);
        assert [] + [Token([line[i]], charStyle)] == [Token([line[i]], charStyle)];
      } else if charStyle == current.style {
        GrowLast(line[..i], styleMap[pos..pos + i], tokens, current, line[i]);
      } else {
        StartNext(line[..i], styleMap[pos..pos + i], tokens + [current], line[i], charStyle);
      }
      hide Tokenises;
      if charStyle == current.style {
        current := Token(current.text + [line[i]], current.style);
      } else {
        if current.text != "" {
          tokens := tokens + [current];
        }
        current := Token([line[i]], charStyle);
      }
    }
    assert line[..|line|] == line;
    if current.text != "" {
      tokens := tokens + [current];
    }
  }

  // ----- Lines of a text -----

  lemma LinesFit(code: string, sep: char)
    ensures var lines := Split(code, sep);
            LineStart(lines, |lines| - 1) + |lines[|lines| - 1]| == |code|
  {
    LinesAddUp(code, sep);
  }

  lemma SplitCons(code: string, sep: char)
    requires code != ""
    ensures var rest := Split(code[1..], sep);
            Split(code, sep) == if code[0] == sep then [""] + rest else [[code[0]] + rest[0]] + rest[1..]
  {
  }

  /** Every line but the last ends with a separator. */
  lemma {:induction false} LinesAddUp(code: string, sep: char)
    ensures LineStart(Split(code, sep), |Split(code, sep)|) == |code| + 1
  {
    if code == "" {
      assert LineStart([""], 1) == 1;
    } else {
      hide LineStart, Split;
      var rest := Split(code[1..], sep);
      LinesAddUp(code[1..], sep);
      SplitCons(code, sep);
      OneMoreLine("", rest);
      OneMoreLine([code[0]] + rest[0], rest[1..]);
      OneMoreLine(rest[0], rest[1..]);
      assert [rest[0]] + rest[1..] == rest;
    }
  }

  lemma OneMoreLine(first: string, more: seq<string>)
    ensures LineStart([first] + more, |more| + 1) == |first| + 1 + LineStart(more, |more|)
  {
    StartAfterFirst([first] + more, |more| + 1);
    assert ([first] + more)[1..] == more;
    hide LineStart;
  }

  lemma {:induction false} StartAfterFirst(lines: seq<string>, i: nat)
    requires 0 < |lines| && i <= |lines|
    ensures LineStart(lines, i) == if i == 0 then 0 else |lines[0]| + 1 + LineStart(lines[1..], i - 1)
  {
    if i > 0 {
      StartAfterFirst(lines, i - 1);
    }
  }

  /** Character `k` of line `i` is the character of the text at the line's start plus `k`. */
  lemma {:induction false} LineOffsets(code: string, sep: char, i: nat, k: nat)
    requires var lines := Split(code, sep); i < |lines| && k < |lines[i]|
    ensures var lines := Split(code, sep);
            LineStart(lines, i) + k < |code| && code[LineStart(lines, i) + k] == lines[i][k]
    decreases |code|
  {
    assert code != "";
    SplitCons(code, sep);
    var (lines, rest) := (Split(code, sep), Split(code[1..], sep));
    StartAfterFirst(lines, i);
    hide LineStart, Split;
    if code[0] == sep {
      assert lines[1..] == rest;
      LineOffsets(code[1..], sep, i - 1, k);
    } else {
      assert lines[1..] == rest[1..];
      if i == 0 {
        StartAfterFirst(rest, i);
        if k > 0 {
          LineOffsets(code[1..], sep, 0, k - 1);
        }
      } else {
        StartAfterFirst(rest, i);
        LineOffsets(code[1..], sep, i, k);
      }
    }
  }

  lemma {:induction false} LineInside(lines: seq<string>, i: nat)
    requires i < |lines|
    ensures LineStart(lines, i) + |lines[i]| <= LineStart(lines, |lines| - 1) + |lines[|lines| - 1]|
    decreases |lines| - i
  {
    if i < |lines| - 1 {
      LineInside(lines, i + 1);
    }
  }

  // ----- The highlighter -----

  /** What the parser of the file painted; nothing without a parser. */
  function Paint(parsed: Option<seq<Span>>): seq<Span> {
    if parsed.Some? then parsed.value else []
  }

  /** The lines of the result, one per line of the text, each highlighted with the styles that the
      spans give its characters. */
  ghost predicate HighlightsLines(lines: seq<string>, spans: seq<Span>, result: seq<seq<Token>>) {
    && |result| <= |lines|
    && forall i | 0 <= i < |result| ::
         Highlights(lines[i], StylesFrom(spans, LineStart(lines, i), |lines[i]|), result[i])
  }

  ghost predicate HighlightsText(code: string, spans: seq<Span>, result: seq<seq<Token>>) {
    var lines := Split(code, '\n');
    |result| == |lines| && HighlightsLines(lines, spans, result)
  }

  lemma NextLine(lines: seq<string>, spans: seq<Span>, result: seq<seq<Token>>, tokens: seq<Token>)
    requires HighlightsLines(lines, spans, result) && |result| < |lines|
    requires var i := |result|;
             Highlights(lines[i], StylesFrom(spans, LineStart(lines, i), |lines[i]|), tokens)
    ensures HighlightsLines(lines, spans, result + [tokens])
  {
    hide Highlights, StylesFrom, LineStart;
    assert forall i | 0 <= i < |result| :: (result + [tokens])[i] == result[i];
  }

  method HighlightPlain(lines: seq<string>) returns (result: seq<seq<Token>>)
    ensures |result| == |lines| && HighlightsLines(lines, [], result)
  {
    result := [];
    for i := 0 to |lines|
      invariant |result| == i && HighlightsLines(lines, [], result)
    {
      if lines[i] != "" {
        PlainLine(lines[i], LineStart(lines, i));
      }
      NextLine(lines, [], result, [Token(lines[i], None)]);
      result := result + [[Token(lines[i], None)]];
    }
  }

  /** One line against the style map of the whole text. */
  method HighlightAt(line: string, styleMap: array<Style>, pos: nat, ghost spans: seq<Span>)
    returns (tokens: seq<Token>)
    requires pos + |line| <= styleMap.Length && styleMap[..] == StylesFrom(spans, 0, styleMap.Length)
    ensures Highlights(line, StylesFrom(spans, pos, |line|), tokens)
  {
    if line == "" {
      return [Token("", None)];
    }
    tokens := TokeniseLine(line, styleMap, pos);
    assert styleMap[pos..pos + |line|] == StylesFrom(spans, pos, |line|);
  }

  /** With a parser: the style map is painted, then cut line by line. */
  method HighlightSpans(lines: seq<string>, spans: seq<Span>, length: nat) returns (result: seq<seq<Token>>)
    requires |lines| > 0 && LineStart(lines, |lines| - 1) + |lines[|lines| - 1]| == length
    ensures |result| == |lines| && HighlightsLines(lines, spans, result)
  {
    result := [];
    assert HighlightsLines(lines, spans, result);
    hide HighlightsLines, StylesFrom, Highlights;
    var styleMap := BuildStyleMap(length, spans);
    var pos := 0;
    for i := 0 to |lines|
      invariant |result| == i && pos == LineStart(lines, i)
      invariant styleMap[..] == StylesFrom(spans, 0, length)
      invariant HighlightsLines(lines, spans, result)
    {
      LineInside(lines, i);
      var tokens := HighlightAt(lines[i], styleMap, pos, spans);
      NextLine(lines, spans, result, tokens);
      result := result + [tokens];
      pos := pos + |lines[i]| + 1;
    }
  }

  method HighlightCode(code: string, parsed: Option<seq<Span>>) returns (result: seq<seq<Token>>)
    ensures HighlightsText(code, Paint(parsed), result)
  {
    var lines := Split(code, '\n');
    if parsed.None? {
      result := HighlightPlain(lines);
      return;
    }
    LinesFit(code, '\n');
    hide Split, HighlightsLines;
    result := HighlightSpans(lines, parsed.value, |code|);
  }

  lemma PlainLine(line: string, offset: nat)
    requires line != ""
    ensures Tokenises(line, StylesFrom([], offset, |line|), [Token(line, None)])
  {
    OneTokenSays(line, None);
    hide Texts, Painted;
    forall k | 0 <= k < |line| ensures StylesFrom([], offset, |line|)[k] == None {
      assert StyleAt([], offset + k) == None;
    }
  }

  lemma OneTokenSays(line: string, style: Style)
    ensures Texts([Token(line, style)]) == line && Painted([Token(line, style)]) == seq(|line|, _ => style)
  {
    assert [Token(line, style)][..0] == [];
  }

  method HighlightLine(line: string, parsed: Option<seq<Span>>) returns (tokens: seq<Token>)
    ensures var first := Split(line, '\n')[0];
            Highlights(first, StylesFrom(Paint(parsed), 0, |first|), tokens)
  {
    var result := HighlightCode(line, parsed);
    assert LineStart(Split(line, '\n'), 0) == 0;
    assert Highlights(Split(line, '\n')[0], StylesFrom(Paint(parsed), 0, |Split(line, '\n')[0]|), result[0]);
    tokens := if |result| > 0 then result[0] else [Token(line, None)];
  }

  // ----- What the result says -----

  function LineTexts(result: seq<seq<Token>>): seq<string> {
    seq(|result|, i requires 0 <= i < |result| => Texts(result[i]))
  }

  /** The lines' tokens, joined by newlines, are the text. */
  lemma TextIsPreserved(code: string, spans: seq<Span>, result: seq<seq<Token>>)
    requires HighlightsText(code, spans, result)
    ensures Join(LineTexts(result), '\n') == code
  {
    var lines := Split(code, '\n');
    forall i | 0 <= i < |lines| ensures Texts(result[i]) == lines[i] {
      if lines[i] == "" {
        assert result[i][..0] == [];
        assert result[i] == [Token("", None)];
      }
    }
    assert LineTexts(result) == lines;
    SplitThenJoin(code, '\n');
  }

  /** Which token a character of a line falls in. */
  function TokenAt(tokens: seq<Token>, k: nat): nat
    requires k < |Texts(tokens)|
  {
    var n := |tokens| - 1;
    if k < |Texts(tokens[..n])| then TokenAt(tokens[..n], k) else n
  }

  lemma {:induction false} PaintedAt(tokens: seq<Token>, k: nat)
    requires k < |Texts(tokens)|
    ensures TokenAt(tokens, k) < |tokens| && |Painted(tokens)| == |Texts(tokens)|
    ensures Painted(tokens)[k] == tokens[TokenAt(tokens, k)].style
  {
    var n := |tokens| - 1;
    PaintedLength(tokens);
    PaintedLength(tokens[..n]);
    if k < |Texts(tokens[..n])| {
      PaintedAt(tokens[..n], k);
    }
  }

  predicate Covers(s: Span, offset: nat) {
    s.from <= offset < s.to
  }

  lemma {:induction false} LastCoverDecides(spans: seq<Span>, offset: nat, j: nat)
    requires j < |spans| && Covers(spans[j], offset) && forall k | j < k < |spans| :: !Covers(spans[k], offset)
    ensures StyleAt(spans, offset) == Some(spans[j].name)
    decreases |spans|
  {
    if j < |spans| - 1 {
      assert !Covers(spans[|spans| - 1], offset);
      LastCoverDecides(spans[..|spans| - 1], offset, j);
    }
  }

  lemma {:induction false} NoCoverNoStyle(spans: seq<Span>, offset: nat)
    requires forall j | 0 <= j < |spans| :: !Covers(spans[j], offset)
    ensures StyleAt(spans, offset) == None
  {
    if spans != [] {
      assert !Covers(spans[|spans| - 1], offset);
      NoCoverNoStyle(spans[..|spans| - 1], offset);
    }
  }

  /** A style is that of the last covering span, or none without one. */
  ghost predicate StyledBy(style: Style, spans: seq<Span>, offset: nat) {
    && ((forall j | 0 <= j < |spans| :: !Covers(spans[j], offset)) ==> style == None)
    && (forall j | 0 <= j < |spans| && Covers(spans[j], offset)
                   && (forall l | j < l < |spans| :: !Covers(spans[l], offset)) :: style == Some(spans[j].name))
  }

  lemma StyleAtIs(spans: seq<Span>, offset: nat)
    ensures StyledBy(StyleAt(spans, offset), spans, offset)
  {
    hide StyleAt, Covers;
    if forall j | 0 <= j < |spans| :: !Covers(spans[j], offset) {
      NoCoverNoStyle(spans, offset);
    } else {
      var j := LastCover(spans, offset);
      LastCoverDecides(spans, offset, j);
    }
  }

  lemma {:induction false} LastCover(spans: seq<Span>, offset: nat) returns (j: nat)
    requires exists i :: 0 <= i < |spans| && Covers(spans[i], offset)
    ensures j < |spans| && Covers(spans[j], offset) && forall k | j < k < |spans| :: !Covers(spans[k], offset)
  {
    hide Covers;
    j := |spans| - 1;
    if !Covers(spans[j], offset) {
      j := LastCover(spans[..j], offset);
    }
  }

  lemma StyleOfCharacter(code: string, spans: seq<Span>, result: seq<seq<Token>>, i: nat, k: nat)
    requires HighlightsText(code, spans, result)
    requires var lines := Split(code, '\n'); i < |lines| && k < |lines[i]|
    ensures k < |Texts(result[i])| && TokenAt(result[i], k) < |result[i]|
    ensures Texts(result[i]) == Split(code, '\n')[i]
    ensures result[i][TokenAt(result[i], k)].style == StyleAt(spans, LineStart(Split(code, '\n'), i) + k)
  {
    var line := Split(code, '\n')[i];
    assert Highlights(line, StylesFrom(spans, LineStart(Split(code, '\n'), i), |line|), result[i]);
    hide Split, LineStart, Texts, Painted, StyleAt, TokenAt;
    PaintedAt(result[i], k);
  }

  /** Every character carries the style of the last span that covers its offset in the text, and none if
      no span does. */
  lemma CharacterStyles(code: string, spans: seq<Span>, result: seq<seq<Token>>, i: nat, k: nat)
    requires HighlightsText(code, spans, result)
    requires var lines := Split(code, '\n'); i < |lines| && k < |lines[i]|
    ensures var offset := LineStart(Split(code, '\n'), i) + k;
            && offset < |code| && k < |Texts(result[i])|
            && Texts(result[i])[k] == code[offset]
            && TokenAt(result[i], k) < |result[i]|
            && StyledBy(result[i][TokenAt(result[i], k)].style, spans, offset)
  {
    hide HighlightsText, StyledBy, LineStart, Split, Texts, TokenAt, StyleAt;
    LineOffsets(code, '\n', i, k);
    StyleOfCharacter(code, spans, result, i, k);
    StyleAtIs(spans, LineStart(Split(code, '\n'), i) + k);
  }

  /** The highlighting of a text is determined: two results that qualify are the same. */
  lemma HighlightingIsUnique(code: string, spans: seq<Span>, a: seq<seq<Token>>, b: seq<seq<Token>>)
    requires HighlightsText(code, spans, a) && HighlightsText(code, spans, b)
    ensures a == b
  {
    var lines := Split(code, '\n');
    forall i | 0 <= i < |lines| ensures a[i] == b[i] {
      if lines[i] != "" {
        TokensAreUnique(lines[i], StylesFrom(spans, LineStart(lines, i), |lines[i]|), a[i], b[i]);
      }
    }
  }

  /** Only an empty line has an empty token. */
  lemma EmptyTokenIff(code: string, spans: seq<Span>, result: seq<seq<Token>>, i: nat)
    requires HighlightsText(code, spans, result) && i < |result|
    ensures (exists j | 0 <= j < |result[i]| :: result[i][j].text == "") <==> Split(code, '\n')[i] == ""
  {
    var line := Split(code, '\n')[i];
    if line == "" {
      assert result[i][0].text == "";
    }
  }
}
