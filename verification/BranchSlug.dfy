/** Branch-name slugs: making one, and checking one. Lower-casing is a parameter, of which only
    one thing is assumed: it does not change strings over a-z, 0-9 and the hyphen. */
module BranchSlug {
  import opened Options
  import opened Text

  datatype SlugError = Empty | TooLong | BadCharacter | HyphenAtEnd | DoubleHyphen

  predicate IsAlnum(c: char) {
    'a' <= c <= 'z' || IsDigit(c)
  }

  predicate HasDoubleHyphen(s: string) {
    exists i | 0 < i < |s| :: s[i - 1] == '-' && s[i] == '-'
  }

  function ValidateBranchSlug(slug: string): Result<(), SlugError> {
    if slug == "" then Err(Empty)
    else if |slug| > 100 then Err(TooLong)
    else if exists i | 0 <= i < |slug| :: !IsAlnum(slug[i]) && slug[i] != '-' && slug[i] != '/' then Err(BadCharacter)
    else if slug[0] == '-' || slug[|slug| - 1] == '-' then Err(HyphenAtEnd)
    else if HasDoubleHyphen(slug) then Err(DoubleHyphen)
    else Ok(())
  }

  /** A slug is valid if and only if it has 1 to 100 characters, all of them lower-case letters, digits,
      hyphens or slashes, no hyphen at either end and no two in a row; the error is the first that
      applies. */
  lemma ValidIff(slug: string)
    ensures var bad := exists i | 0 <= i < |slug| ::
                         !('a' <= slug[i] <= 'z' || '0' <= slug[i] <= '9' || slug[i] in "-/");
            var double := exists i | 0 < i < |slug| :: slug[i - 1] == '-' && slug[i] == '-';
            ValidateBranchSlug(slug) ==
              if slug == "" then Err(Empty)
              else if |slug| > 100 then Err(TooLong)
              else if bad then Err(BadCharacter)
              else if slug[0] == '-' || slug[|slug| - 1] == '-' then Err(HyphenAtEnd)
              else if double then Err(DoubleHyphen)
              else Ok(())
  {
  }

  const MAX_SLUG_LENGTH := 50

  // ----- Making a slug -----

  /** The string after its leading characters other than letters and digits. */
  function AfterRun(s: string): (r: string)
    ensures |r| <= |s| && (r != "" ==> IsAlnum(r[0]))
    ensures s != "" && !IsAlnum(s[0]) ==> |r| < |s|
  {
    if s != "" && !IsAlnum(s[0]) then AfterRun(s[1..]) else s
  }

  /** Every maximal run of other characters becomes one hyphen. */
  function Collapse(s: string): string
    decreases |s|
  {
    if s == "" then ""
    else if IsAlnum(s[0]) then [s[0]] + Collapse(s[1..])
    else ['-'] + Collapse(AfterRun(s))
  }

  function TrimStart(s: string): string {
    if s != "" && s[0] == '-' then TrimStart(s[1..]) else s
  }

  function TrimEnd(s: string): string {
    if s != "" && s[|s| - 1] == '-' then TrimEnd(s[..|s| - 1]) else s
  }

  function LastHyphen(s: string): (r: int)
    ensures -1 <= r < |s| && (r >= 0 ==> s[r] == '-')
  {
    if s == "" then -1 else if s[|s| - 1] == '-' then |s| - 1 else LastHyphen(s[..|s| - 1])
  }

  /** The slug before it is cut to length. */
  function FullSlug(lowered: string): string {
    TrimEnd(TrimStart(Collapse(lowered)))
  }

  function Shorten(slug: string): string {
    if |slug| <= MAX_SLUG_LENGTH then slug
    else
      var truncated := slug[..MAX_SLUG_LENGTH];
      var lastHyphen := LastHyphen(truncated);
      if lastHyphen > MAX_SLUG_LENGTH / 2 then truncated[..lastHyphen] else TrimEnd(truncated)
  }

  function Slugify(lower: string -> string, input: string): string {
    Shorten(FullSlug(lower(input)))
  }

  ghost predicate FixesSlugs(lower: string -> string) {
    forall s: string :: (forall i | 0 <= i < |s| :: IsAlnum(s[i]) || s[i] == '-') ==> lower(s) == s
  }

  // ----- What comes out -----

  predicate OverSlugChars(s: string) {
    forall i | 0 <= i < |s| :: IsAlnum(s[i]) || s[i] == '-'
  }

  predicate SingleHyphens(s: string) {
    OverSlugChars(s) && !HasDoubleHyphen(s)
  }

  /** Words of letters and digits, one hyphen between any two. */
  predicate Clean(s: string) {
    SingleHyphens(s) && (s != "" ==> s[0] != '-' && s[|s| - 1] != '-')
  }

  lemma {:induction false} CollapseSingles(s: string)
    ensures SingleHyphens(Collapse(s))
    ensures s != "" ==> Collapse(s) != "" && (IsAlnum(s[0]) ==> Collapse(s)[0] == s[0])
    decreases |s|
  {
    if s != "" {
      var rest := if IsAlnum(s[0]) then s[1..] else AfterRun(s);
      CollapseSingles(rest);
      var head, tail := Collapse(s)[0], Collapse(rest);
      assert Collapse(s) == [head] + tail;
      assert tail != "" && head == '-' ==> tail[0] != '-';
      Prepend(head, tail);
    }
  }

  lemma Prepend(c: char, s: string)
    requires SingleHyphens(s) && (IsAlnum(c) || c == '-') && (s != "" && c == '-' ==> s[0] != '-')
    ensures SingleHyphens([c] + s)
  {
    var t := [c] + s;
    forall i | 0 < i < |t| ensures !(t[i - 1] == '-' && t[i] == '-') {
      assert t[i] == s[i - 1] && (i > 1 ==> t[i - 1] == s[i - 2]);
    }
  }

  lemma SliceSingles(s: string, i: nat, j: nat)
    requires SingleHyphens(s) && i <= j <= |s|
    ensures SingleHyphens(s[i..j])
  {
    var t := s[i..j];
    forall k | 0 < k < |t| ensures !(t[k - 1] == '-' && t[k] == '-') {
      assert t[k] == s[i + k] && t[k - 1] == s[i + k - 1];
    }
  }

  lemma {:induction false} TrimStartSlice(s: string) returns (i: nat)
    ensures i <= |s| && TrimStart(s) == s[i..] && (i < |s| ==> s[i] != '-')
  {
    i := 0;
    if s != "" && s[0] == '-' {
      i := TrimStartSlice(s[1..]);
      i := i + 1;
    }
  }

  lemma {:induction false} TrimEndSlice(s: string) returns (j: nat)
    ensures j <= |s| && TrimEnd(s) == s[..j] && (j > 0 ==> s[j - 1] != '-')
  {
    j := |s|;
    if s != "" && s[|s| - 1] == '-' {
      j := TrimEndSlice(s[..|s| - 1]);
    }
  }

  lemma FullSlugIsClean(lowered: string)
    ensures Clean(FullSlug(lowered))
  {
    CollapseSingles(lowered);
    hide HasDoubleHyphen, OverSlugChars, Collapse;
    var c := Collapse(lowered);
    var i := TrimStartSlice(c);
    SliceSingles(c, i, |c|);
    var t := c[i..];
    assert t == c[i..|c|];
    var j := TrimEndSlice(t);
    SliceSingles(t, 0, j);
    assert t[..j] == t[0..j];
  }

  lemma ShortenIsClean(s: string)
    requires Clean(s)
    ensures Clean(Shorten(s)) && |Shorten(s)| <= MAX_SLUG_LENGTH && Shorten(s) <= s
  {
    if |s| > MAX_SLUG_LENGTH {
      var truncated := s[..MAX_SLUG_LENGTH];
      var last := LastHyphen(truncated);
      SliceSingles(s, 0, MAX_SLUG_LENGTH);
      if last > MAX_SLUG_LENGTH / 2 {
        SliceSingles(truncated, 0, last);
        assert truncated[last - 1] != '-';
      } else {
        var j := TrimEndSlice(truncated);
        SliceSingles(truncated, 0, j);
      }
    }
  }

  /** A slug has at most 50 characters, and is empty or accepted, whatever the input and however
      it is lower-cased. */
  lemma SlugIsAccepted(lower: string -> string, input: string)
    ensures var slug := Slugify(lower, input);
            && |slug| <= MAX_SLUG_LENGTH
            && (slug == "" || ValidateBranchSlug(slug).Ok?)
            && '/' !in slug
  {
    FullSlugIsClean(lower(input));
    ShortenIsClean(FullSlug(lower(input)));
  }

  // ----- What stays -----

  lemma {:induction false} CollapseFixes(s: string)
    requires SingleHyphens(s)
    ensures Collapse(s) == s
    decreases |s|
  {
    if s != "" {
      SliceSingles(s, 1, |s|);
      assert s[1..|s|] == s[1..];
      CollapseFixes(s[1..]);
      if !IsAlnum(s[0]) {
        assert |s| > 1 ==> !(s[0] == '-' && s[1] == '-');
        assert AfterRun(s) == s[1..];
      }
      assert [s[0]] + s[1..] == s;
    }
  }

  lemma CleanIsFixed(s: string)
    requires Clean(s) && |s| <= MAX_SLUG_LENGTH
    ensures Shorten(FullSlug(s)) == s
  {
    CollapseFixes(s);
  }

  /** Exactly the empty string and the accepted slugs of at most 50 characters without a slash are
      their own slugs. */
  lemma OwnSlugIff(lower: string -> string, s: string)
    requires FixesSlugs(lower)
    ensures Slugify(lower, s) == s
            <==> s == "" || (ValidateBranchSlug(s).Ok? && |s| <= MAX_SLUG_LENGTH && '/' !in s)
  {
    if Slugify(lower, s) == s {
      SlugIsAccepted(lower, s);
    } else if s == "" || (ValidateBranchSlug(s).Ok? && |s| <= MAX_SLUG_LENGTH && '/' !in s) {
      assert Clean(s);
      CleanIsFixed(s);
    }
  }

  lemma SlugifyIsIdempotent(lower: string -> string, input: string)
    requires FixesSlugs(lower)
    ensures Slugify(lower, Slugify(lower, input)) == Slugify(lower, input)
  {
    SlugIsAccepted(lower, input);
    OwnSlugIff(lower, Slugify(lower, input));
  }

  // ----- Words -----

  /** The leading letters and digits of a string. */
  function Word(s: string): (w: string)
    ensures w <= s && (s != "" && IsAlnum(s[0]) ==> w != "")
  {
    if s != "" && IsAlnum(s[0]) then [s[0]] + Word(s[1..]) else ""
  }

  /** The maximal runs of letters and digits. */
  function Words(s: string): seq<string>
    decreases |s|
  {
    var t := AfterRun(s);
    if t == "" then [] else [Word(t)] + Words(t[|Word(t)|..])
  }

  lemma {:induction false} CollapseWord(s: string)
    ensures Collapse(s) == Word(s) + Collapse(s[|Word(s)|..])
    ensures var w := Word(s); w != "" ==> w[|w| - 1] != '-'
    ensures var rest := s[|Word(s)|..]; rest != "" ==> !IsAlnum(rest[0])
  {
    if s != "" && IsAlnum(s[0]) {
      var tail := s[1..];
      CollapseWord(tail);
      var w := Word(tail);
      var rest := tail[|w|..];
      assert s[|w| + 1..] == rest;
      assert Word(s) == [s[0]] + w;
      assert Collapse(s) == [s[0]] + Collapse(tail);
      hide Word, Collapse;
      assert [s[0]] + (w + Collapse(rest)) == [s[0]] + w + Collapse(rest);
    } else {
      assert s[0..] == s;
    }
  }

  lemma {:induction false} TrimEndOfConcat(a: string, b: string)
    ensures TrimEnd(b) != "" ==> TrimEnd(a + b) == a + TrimEnd(b)
  {
    if b != "" && b[|b| - 1] == '-' {
      TrimEndOfConcat(a, b[..|b| - 1]);
      assert (a + b)[..|a + b| - 1] == a + b[..|b| - 1];
    } else if b != "" {
      assert (a + b)[|a + b| - 1] == b[|b| - 1];
    }
  }

  lemma {:induction false} TrimmedIsWords(s: string)
    requires s != "" ==> IsAlnum(s[0])
    ensures TrimEnd(Collapse(s)) == Join(Words(s), '-')
    ensures s != "" ==> Join(Words(s), '-') != ""
    decreases |s|
  {
    if s != "" {
      CollapseWord(s);
      var w := Word(s);
      var rest := s[|w|..];
      var next := AfterRun(rest);
      assert AfterRun(s) == s;
      assert Words(s) == [w] + Words(rest);
      assert Words(s)[1..] == Words(rest);
      if rest == "" {
        assert w + "" == w;
      } else {
        TrimmedIsWords(next);
        assert AfterRun(next) == next;
        assert Words(rest) == Words(next);
        assert Collapse(s) == w + (['-'] + Collapse(next));
        if next == "" {
          assert (w + ['-'])[..|w|] == w;
          assert ['-'] + "" == ['-'];
        } else {
          TrimEndOfConcat(['-'], Collapse(next));
          TrimEndOfConcat(w, ['-'] + Collapse(next));
          assert w + ['-'] + Join(Words(next), '-') == w + (['-'] + Join(Words(next), '-'));
        }
      }
    }
  }

  /** Before it is cut, a slug is the words of the lower-cased input with one hyphen between any two. */
  lemma FullSlugIsWords(lowered: string)
    ensures FullSlug(lowered) == Join(Words(lowered), '-')
  {
    var next := AfterRun(lowered);
    TrimmedIsWords(next);
    assert Words(next) == Words(lowered);
    if next != lowered {
      assert Collapse(lowered) == ['-'] + Collapse(next);
      assert (['-'] + Collapse(next))[1..] == Collapse(next);
    }
    assert TrimStart(Collapse(next)) == Collapse(next) by {
      CollapseSingles(next);
    }
  }

  /** A slug of more than 50 characters is cut at the last hyphen among the first 50, if that is past
      the 26th character, and after the 50th character otherwise. */
  lemma LongSlugIsCut(lower: string -> string, input: string)
    ensures var (full, slug) := (Join(Words(lower(input)), '-'), Slugify(lower, input));
            if |full| <= 50 then slug == full
            else if exists h :: 25 < h < 50 && full[h] == '-' then
              exists h :: 25 < h < 50 && full[h] == '-' && (forall k | h < k < 50 :: full[k] != '-')
                          && slug == full[..h]
            else slug == full[..50]
  {
    FullSlugIsWords(lower(input));
    var full := FullSlug(lower(input));
    hide FullSlug, Words, Join;
    if |full| > 50 {
      var cut := full[..50];
      LastHyphenIsLast(cut);
      assert forall k | 0 <= k < 50 :: cut[k] == full[k];
      var h := LastHyphen(cut);
      if h > 25 {
        assert full[h] == '-' && cut[..h] == full[..h];
      } else {
        assert cut[49] != '-';
      }
    }
  }

  lemma {:induction false} LastHyphenIsLast(s: string)
    ensures forall k | LastHyphen(s) < k < |s| :: s[k] != '-'
  {
    if s != "" && s[|s| - 1] != '-' {
      LastHyphenIsLast(s[..|s| - 1]);
    }
  }

  // ----- What is kept of the input -----

  /** The letters and digits of a string, in order. */
  function Letters(s: string): string
  {
    if s == "" then "" else Letters(s[..|s| - 1]) + (if IsAlnum(s[|s| - 1]) then [s[|s| - 1]] else "")
  }

  lemma {:induction false} LettersConcat(a: string, b: string)
    ensures Letters(a + b) == Letters(a) + Letters(b)
  {
    if b == "" {
      assert a + b == a;
    } else {
      LettersConcat(a, b[..|b| - 1]);
      assert (a + b)[..|a + b| - 1] == a + b[..|b| - 1];
    }
  }

  lemma LettersCons(s: string)
    requires s != ""
    ensures Letters(s) == if IsAlnum(s[0]) then [s[0]] + Letters(s[1..]) else Letters(s[1..])
  {
    LettersConcat([s[0]], s[1..]);
    assert s == [s[0]] + s[1..];
    assert [s[0]][..0] == "";
  }

  lemma {:induction false} AfterRunLetters(s: string)
    ensures Letters(AfterRun(s)) == Letters(s)
  {
    if s != "" && !IsAlnum(s[0]) {
      AfterRunLetters(s[1..]);
      LettersCons(s);
    }
  }

  lemma {:induction false} CollapseLetters(s: string)
    ensures Letters(Collapse(s)) == Letters(s)
    decreases |s|
  {
    if s != "" {
      var rest := if IsAlnum(s[0]) then s[1..] else AfterRun(s);
      CollapseLetters(rest);
      AfterRunLetters(s);
      LettersCons(s);
      var c := Collapse(s);
      LettersCons(c);
      assert c[1..] == Collapse(rest);
      assert c[0] == if IsAlnum(s[0]) then s[0] else '-';
      hide Letters, Collapse, AfterRun;
    } else {
      assert Collapse(s) == s;
    }
  }

  lemma {:induction false} TrimStartLetters(s: string)
    ensures Letters(TrimStart(s)) == Letters(s)
  {
    if s != "" && s[0] == '-' {
      TrimStartLetters(s[1..]);
      LettersCons(s);
    }
  }

  lemma {:induction false} TrimEndLetters(s: string)
    ensures Letters(TrimEnd(s)) == Letters(s)
  {
    if s != "" && s[|s| - 1] == '-' {
      TrimEndLetters(s[..|s| - 1]);
    }
  }

  lemma FullSlugLetters(lowered: string)
    ensures Letters(FullSlug(lowered)) == Letters(lowered)
  {
    CollapseLetters(lowered);
    TrimStartLetters(Collapse(lowered));
    TrimEndLetters(TrimStart(Collapse(lowered)));
  }

  lemma PrefixLetters(a: string, b: string)
    requires a <= b
    ensures Letters(a) <= Letters(b)
  {
    LettersConcat(a, b[|a|..]);
    assert b == a + b[|a|..];
  }

  /** The letters and digits of a slug are those the input starts with; all of them, and in the same
      order, unless the slug had to be cut. */
  lemma SlugKeepsLetters(lower: string -> string, input: string)
    ensures Letters(Slugify(lower, input)) <= Letters(lower(input))
    ensures |FullSlug(lower(input))| <= MAX_SLUG_LENGTH ==> Letters(Slugify(lower, input)) == Letters(lower(input))
  {
    FullSlugLetters(lower(input));
    FullSlugIsClean(lower(input));
    ShortenIsClean(FullSlug(lower(input)));
    hide FullSlug, Letters, Clean;
    PrefixLetters(Slugify(lower, input), FullSlug(lower(input)));
  }
}
