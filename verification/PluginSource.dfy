/** Plugin source references: a source, and optionally a path inside it after the last colon. */
module PluginSource {
  import opened Options
  import opened Text

  datatype Reference = Reference(source: string, pluginPath: Option<string>)

  // ----- Searching -----

  function LastIndexOf(s: string, c: char): (r: Option<nat>)
    ensures r.None? ==> c !in s
    ensures r.Some? ==> r.value < |s| && s[r.value] == c && forall k | r.value < k < |s| :: s[k] != c
  {
    if s == "" then None
    else if s[|s| - 1] == c then Some(|s| - 1)
    else LastIndexOf(s[..|s| - 1], c)
  }

  function IndexOf(s: string, c: char, from: nat): (r: Option<nat>)
    requires from <= |s|
    ensures r.None? ==> forall k | from <= k < |s| :: s[k] != c
    ensures r.Some? ==> from <= r.value < |s| && s[r.value] == c && forall k | from <= k < r.value :: s[k] != c
    decreases |s| - from
  {
    if from == |s| then None else if s[from] == c then Some(from) else IndexOf(s, c, from + 1)
  }

  predicate SchemeAt(s: string, i: nat) {
    i + 3 <= |s| && s[i] == ':' && s[i + 1] == '/' && s[i + 2] == '/'
  }

  function IndexOfScheme(s: string, from: nat): (r: Option<nat>)
    requires from <= |s|
    ensures r.None? ==> forall k | from <= k :: !SchemeAt(s, k)
    ensures r.Some? ==> from <= r.value && SchemeAt(s, r.value) && forall k | from <= k < r.value :: !SchemeAt(s, k)
    decreases |s| - from
  {
    if from == |s| then None else if SchemeAt(s, from) then Some(from) else IndexOfScheme(s, from + 1)
  }

  /** The characters that `\s` matches. */
  predicate IsSpace(c: char) {
    var n := c as int;
    || 9 <= n <= 13 || n == 0x20 || n == 0xa0 || n == 0x1680 || 0x2000 <= n <= 0x200a
    || n == 0x2028 || n == 0x2029 || n == 0x202f || n == 0x205f || n == 0x3000 || n == 0xfeff
  }

  predicate UserChar(c: char) {
    c != '/' && c != '@' && !IsSpace(c)
  }

  predicate HostChar(c: char) {
    c != ':' && !IsSpace(c)
  }

  /** `s[..n]` is a user, an at sign at `at`, and a host. */
  predicate UserAtHost(s: string, at: nat, n: nat) {
    && 0 < at && at + 1 < n <= |s| && s[at] == '@'
    && (forall k | 0 <= k < at :: UserChar(s[k]))
    && (forall k | at < k < n :: HostChar(s[k]))
  }

  /** The place of the colon that ends the match of `^[^/@\s]+@[^:\s]+:`. */
  function ScpColon(s: string): Option<nat> {
    var at := IndexOf(s, '@', 0);
    if at.None? then None
    else
      var colon := IndexOf(s, ':', at.value);
      if colon.Some? && UserAtHost(s, at.value, colon.value) then colon else None
  }

  /** The pattern has one match at most, and `ScpColon` finds it. */
  lemma ScpColonIff(s: string, n: nat)
    ensures ScpColon(s) == Some(n) <==> n < |s| && s[n] == ':' && exists at: nat :: UserAtHost(s, at, n)
  {
    if n < |s| && s[n] == ':' && exists at: nat :: UserAtHost(s, at, n) {
      var at: nat :| UserAtHost(s, at, n);
      assert IndexOf(s, '@', 0) == Some(at);
      assert IndexOf(s, ':', at) == Some(n);
    }
  }

  // ----- Portable paths -----

  function Slashes(p: string): string {
    seq(|p|, i requires 0 <= i < |p| => if p[i] == '\\' then '/' else p[i])
  }

  predicate IsPortableRelativePluginPath(p: string) {
    || p == "."
    || (&& p != "" && p[0] != '/' && p[0] != '\\'
        && ':' !in p
        && var parts := Split(Slashes(p), '/');
           forall i | 0 <= i < |parts| :: parts[i] != "" && parts[i] != "." && parts[i] != "..")
  }

  // ----- Parsing and formatting -----

  function Parse(reference: string): Reference {
    var separator := LastIndexOf(reference, ':');
    if separator.None? then Reference(reference, None)
    else
      var pluginPath := reference[separator.value + 1..];
      if !IsPortableRelativePluginPath(pluginPath) then Reference(reference, None)
      else
        var scheme := IndexOfScheme(reference, 0);
        if scheme.Some? then
          var pathStart := IndexOf(reference, '/', scheme.value + 3);
          if pathStart.None? || separator.value < pathStart.value then Reference(reference, None)
          else Reference(reference[..separator.value], Some(pluginPath))
        else if ScpColon(reference) == separator then Reference(reference, None)
        else Reference(reference[..separator.value], Some(pluginPath))
  }

  /** A path that is not portable is an error. */
  function Format(r: Reference): Result<string, string> {
    if r.pluginPath.None? then Ok(r.source)
    else if !IsPortableRelativePluginPath(r.pluginPath.value) then
      Err("Plugin path must be a portable path relative to the repository")
    else Ok(r.source + [':'] + r.pluginPath.value)
  }

  /** Formatting undoes parsing, on every string. */
  lemma FormatUndoesParse(reference: string)
    ensures Format(Parse(reference)) == Ok(reference)
  {
    var separator := LastIndexOf(reference, ':');
    if separator.Some? {
      assert reference[..separator.value] + [':'] + reference[separator.value + 1..] == reference;
    }
  }

  /** A URL without a path, or a user and host without a colon or white space after them. */
  ghost predicate TakesNoPath(source: string) {
    var scheme := IndexOfScheme(source, 0);
    if scheme.Some? then forall k | scheme.value + 3 <= k < |source| :: source[k] != '/'
    else exists at: nat :: UserAtHost(source, at, |source|)
  }

  lemma LastColon(source: string, p: string)
    requires ':' !in p
    ensures LastIndexOf(source + [':'] + p, ':') == Some(|source|)
  {
    NoLaterColon(source, p);
    var at := LastIndexOf(source + [':'] + p, ':');
    assert at.Some? && at.value >= |source|;
  }

  lemma NoLaterColon(source: string, p: string)
    requires ':' !in p
    ensures var r := source + [':'] + p; r[|source|] == ':' && forall k | |source| < k < |r| :: r[k] != ':'
  {
    var r := source + [':'] + p;
    forall k | |source| < k < |r| ensures r[k] != ':' {
      assert r[k] == p[k - |source| - 1];
    }
  }

  /** The scheme of the whole is the scheme of the source: a portable path cannot complete one. */
  lemma SchemeIsTheSources(source: string, p: string)
    requires ':' !in p && p != "" && p[0] != '/'
    ensures IndexOfScheme(source + [':'] + p, 0) == IndexOfScheme(source, 0)
  {
    var r := source + [':'] + p;
    NoLaterColon(source, p);
    assert |r| > |source| + 1 && r[|source| + 1] == p[0];
    assert forall k | 0 <= k < |source| :: r[k] == source[k];
    assert forall k: nat :: SchemeAt(r, k) <==> SchemeAt(source, k);
    var a, b := IndexOfScheme(r, 0), IndexOfScheme(source, 0);
    if a.Some? {
      assert SchemeAt(source, a.value);
    }
    if b.Some? {
      assert SchemeAt(r, b.value);
    }
  }

  lemma UserAtHostOfWhole(source: string, p: string, at: nat)
    ensures UserAtHost(source + [':'] + p, at, |source|) <==> UserAtHost(source, at, |source|)
  {
    var r := source + [':'] + p;
    assert forall k | 0 <= k < |source| :: r[k] == source[k];
  }

  /** Parsing undoes formatting exactly when the source is one that can take a path. */
  lemma ParseUndoesFormatIff(source: string, p: string)
    requires IsPortableRelativePluginPath(p)
    ensures Format(Reference(source, Some(p))).Ok?
    ensures Parse(Format(Reference(source, Some(p))).value) == Reference(source, Some(p)) <==> !TakesNoPath(source)
  {
    var r := source + [':'] + p;
    LastColon(source, p);
    SchemeIsTheSources(source, p);
    assert r[..|source|] == source;
    assert r[|source| + 1..] == p;
    var scheme := IndexOfScheme(source, 0);
    if scheme.Some? {
      PathStarts(source, p, scheme.value + 3);
    } else {
      ScpColonIff(r, |source|);
      forall at: nat ensures UserAtHost(r, at, |source|) <==> UserAtHost(source, at, |source|) {
        UserAtHostOfWhole(source, p, at);
      }
    }
  }

  lemma PathStarts(source: string, p: string, from: nat)
    requires from <= |source|
    ensures var start := IndexOf(source + [':'] + p, '/', from);
            (start.None? || |source| < start.value) <==> forall k | from <= k < |source| :: source[k] != '/'
  {
    var r := source + [':'] + p;
    assert forall k | 0 <= k < |source| :: r[k] == source[k];
    assert r[|source|] == ':';
  }

  // ----- Which references have a path, character by character -----

  /** `s[i..j]` lies between separators or ends and has none inside. */
  predicate Segment(s: string, separators: string, i: int, j: int) {
    && 0 <= i <= j <= |s|
    && (i == 0 || s[i - 1] in separators)
    && (j == |s| || s[j] in separators)
    && forall k | i <= k < j :: s[k] !in separators
  }

  ghost predicate HasSegment(s: string, separators: string, x: string) {
    exists i, j :: Segment(s, separators, i, j) && s[i..j] == x
  }

  /** The pieces of a split are the segments. */
  lemma {:induction false} PiecesAreSegments(s: string, sep: char, x: string)
    ensures x in Split(s, sep) <==> HasSegment(s, [sep], x)
    decreases |s|
  {
    var at := IndexOf(s, sep, 0);
    if at.None? {
      SplitWhole(s, sep);
      assert Segment(s, [sep], 0, |s|) && s[0..|s|] == s;
    } else {
      var (a, b) := (s[..at.value], s[at.value + 1..]);
      assert s == a + [sep] + b;
      SplitAtFirst(a, sep, b);
      PiecesAreSegments(b, sep, x);
      SegmentsOfRest(s, sep, at.value, x);
      hide HasSegment, Split;
    }
  }

  lemma SegmentsOfRest(s: string, sep: char, f: nat, x: string)
    requires f < |s| && s[f] == sep && forall k | 0 <= k < f :: s[k] != sep
    ensures HasSegment(s, [sep], x) <==> x == s[..f] || HasSegment(s[f + 1..], [sep], x)
  {
    var b := s[f + 1..];
    assert Segment(s, [sep], 0, f) && s[0..f] == s[..f];
    forall i, j
      ensures i > 0 ==> (Segment(s, [sep], i, j) <==> Segment(b, [sep], i - f - 1, j - f - 1))
      ensures i == 0 && Segment(s, [sep], i, j) ==> j == f
      ensures Segment(b, [sep], i - f - 1, j - f - 1) ==> i > 0 && s[i..j] == b[i - f - 1..j - f - 1]
    {
      SegmentShifts(s, sep, f, i, j);
    }
    hide Segment;
    if HasSegment(s, [sep], x) {
      var i, j :| Segment(s, [sep], i, j) && s[i..j] == x;
      if i > 0 {
        assert Segment(b, [sep], i - f - 1, j - f - 1) && b[i - f - 1..j - f - 1] == x;
      }
    }
    if HasSegment(b, [sep], x) {
      var i, j :| Segment(b, [sep], i, j) && b[i..j] == x;
      var (i', j') := (i + f + 1, j + f + 1);
      assert Segment(b, [sep], i' - f - 1, j' - f - 1);
      assert Segment(s, [sep], i', j') && s[i'..j'] == x;
    }
  }

  lemma SegmentShifts(s: string, sep: char, f: nat, i: int, j: int)
    requires f < |s| && s[f] == sep && forall k | 0 <= k < f :: s[k] != sep
    ensures var b := s[f + 1..];
            && (i > 0 ==> (Segment(s, [sep], i, j) <==> Segment(b, [sep], i - f - 1, j - f - 1)))
            && (i == 0 && Segment(s, [sep], i, j) ==> j == f)
            && (Segment(b, [sep], i - f - 1, j - f - 1) ==> i > 0 && s[i..j] == b[i - f - 1..j - f - 1])
  {
    SegmentBetween(s, sep, i, j);
    SegmentBetween(s[f + 1..], sep, i - f - 1, j - f - 1);
    hide Segment;
    if i > f && j <= |s| && i <= j {
      assert s[i..j] == s[f + 1..][i - f - 1..j - f - 1];
    }
  }

  /** The same for a single separator. */
  lemma SegmentBetween(s: string, sep: char, i: int, j: int)
    ensures Segment(s, [sep], i, j)
            <==> && 0 <= i <= j <= |s| && (i == 0 || s[i - 1] == sep) && (j == |s| || s[j] == sep)
                 && sep !in s[i..j]
  {
    if 0 <= i <= j <= |s| {
      assert sep !in s[i..j] <==> forall k | i <= k < j :: s[k] != sep by {
        if k :| i <= k < j && s[k] == sep {
          assert s[i..j][k - i] == sep;
        }
      }
    }
  }

  /** A portable path is `.`, or has no colon and no segment, between slashes and backslashes, that is
      empty, `.` or `..`. */
  ghost predicate Portable(p: string) {
    p == "." || (':' !in p && forall x | HasSegment(p, "/\\", x) :: x !in {"", ".", ".."})
  }

  lemma SlashesAre(p: string)
    ensures |Slashes(p)| == |p|
    ensures forall k | 0 <= k < |p| :: Slashes(p)[k] in "/" <==> p[k] in "/\\"
    ensures forall k | 0 <= k < |p| && p[k] !in "/\\" :: Slashes(p)[k] == p[k]
  {
  }

  lemma SlashedSegments(p: string, x: string)
    requires '/' !in x && '\\' !in x
    ensures HasSegment(p, "/\\", x) <==> HasSegment(Slashes(p), "/", x)
  {
    var q := Slashes(p);
    SlashesAre(p);
    hide Slashes;
    if HasSegment(p, "/\\", x) {
      var i, j :| Segment(p, "/\\", i, j) && p[i..j] == x;
      assert Segment(q, "/", i, j) && q[i..j] == x;
    }
    if HasSegment(q, "/", x) {
      var i, j :| Segment(q, "/", i, j) && q[i..j] == x;
      assert Segment(p, "/\\", i, j);
      assert p[i..j] == x;
    }
  }

  lemma PortableIff(p: string)
    ensures IsPortableRelativePluginPath(p) <==> Portable(p)
  {
    var parts := Split(Slashes(p), '/');
    if p == "" || p[0] == '/' || p[0] == '\\' {
      assert Segment(p, "/\\", 0, 0) && p[0..0] == "";
      assert HasSegment(p, "/\\", "");
    }
    hide HasSegment, Split, Slashes;
    BadSegment(p, "");
    BadSegment(p, ".");
    BadSegment(p, "..");
    assert (forall i | 0 <= i < |parts| :: parts[i] != "" && parts[i] != "." && parts[i] != "..")
       <==> "" !in parts && "." !in parts && ".." !in parts;
  }

  lemma BadSegment(p: string, x: string)
    requires x in {"", ".", ".."}
    ensures x in Split(Slashes(p), '/') <==> HasSegment(p, "/\\", x)
  {
    PiecesAreSegments(Slashes(p), '/', x);
    SlashedSegments(p, x);
    hide HasSegment, Split, Slashes;
  }

  const WHITE_SPACE :=
    "\t\n\U{b}\U{c}\r \U{a0}\U{1680}\U{2000}\U{2001}\U{2002}\U{2003}\U{2004}\U{2005}\U{2006}\U{2007}\U{2008}"
    + "\U{2009}\U{200a}\U{2028}\U{2029}\U{202f}\U{205f}\U{3000}\U{feff}"

  predicate SchemeStandsAt(s: string, k: int) {
    0 <= k <= |s| - 3 && s[k..k + 3] == "://"
  }

  /** The first `://` is at `k`. */
  ghost predicate FirstScheme(s: string, k: int) {
    SchemeStandsAt(s, k) && forall l | 0 <= l < k :: !SchemeStandsAt(s, l)
  }

  /** Some source takes no path: a URL with no slash after `://`, and, without `://`, an at sign with a
      user before it, without slash, at sign or white space, and a host after it to the end, without
      colon or white space. */
  ghost predicate Pathless(s: string) {
    if exists k :: FirstScheme(s, k) then
      exists k :: FirstScheme(s, k) && forall l | k + 3 <= l < |s| :: s[l] != '/'
    else
      exists at :: UserThenHost(s, at)
  }

  predicate UserThenHost(s: string, at: int) {
    && 0 < at < |s| - 1 && s[at] == '@'
    && (forall k | 0 <= k < at :: s[k] != '/' && s[k] != '@' && s[k] !in WHITE_SPACE)
    && (forall k | at < k < |s| :: s[k] != ':' && s[k] !in WHITE_SPACE)
  }

  lemma WhiteSpaceIs(c: char)
    ensures IsSpace(c) <==> c in WHITE_SPACE
  {
  }

  lemma PathlessIff(s: string)
    ensures TakesNoPath(s) <==> Pathless(s)
  {
    forall k: nat
      ensures SchemeAt(s, k) <==> SchemeStandsAt(s, k)
    {
    }
    var scheme := IndexOfScheme(s, 0);
    if scheme.Some? {
      assert SchemeStandsAt(s, scheme.value);
      assert FirstScheme(s, scheme.value);
      forall k | FirstScheme(s, k) ensures k == scheme.value {
        assert SchemeStandsAt(s, k);
      }
    } else {
      forall k ensures !FirstScheme(s, k) {
        assert k >= 0 ==> !SchemeAt(s, k);
      }
    }
    forall at: nat ensures UserAtHost(s, at, |s|) <==> UserThenHost(s, at) {
      UserThenHostIs(s, at);
    }
    hide UserAtHost, UserThenHost;
    if exists at :: UserThenHost(s, at) {
      var at :| UserThenHost(s, at);
      assert at >= 0 by { UserComesFirst(s, at); }
      assert UserAtHost(s, at, |s|);
    }
  }

  lemma UserComesFirst(s: string, at: int)
    requires UserThenHost(s, at)
    ensures at > 0
  {
  }

  lemma UserThenHostIs(s: string, at: nat)
    ensures UserAtHost(s, at, |s|) <==> UserThenHost(s, at)
  {
    forall k | 0 <= k < |s| ensures IsSpace(s[k]) <==> s[k] in WHITE_SPACE {
      WhiteSpaceIs(s[k]);
    }
    hide IsSpace;
  }

  /** A reference carries a path if and only if it is a source that can take one, a colon and a portable
      path; any other is a source as a whole. */
  lemma ParseTakesPathIff(reference: string, source: string, p: string)
    ensures Parse(reference) == Reference(source, Some(p))
            <==> reference == source + ":" + p && Portable(p) && !Pathless(source)
    ensures Parse(reference).pluginPath.None? ==> Parse(reference).source == reference
  {
    PortableIff(p);
    PathlessIff(source);
    FormatUndoesParse(reference);
    hide Portable, Pathless, TakesNoPath;
    if IsPortableRelativePluginPath(p) {
      ParseUndoesFormatIff(source, p);
      hide Parse, IsPortableRelativePluginPath;
    }
  }

  /** Formatting joins source and path by a colon, and refuses a path that is not portable. */
  lemma FormatIs(source: string, p: string)
    ensures Format(Reference(source, None)) == Ok(source)
    ensures Format(Reference(source, Some(p))) ==
            if Portable(p) then Ok(source + ":" + p)
            else Err("Plugin path must be a portable path relative to the repository")
  {
    PortableIff(p);
    hide IsPortableRelativePluginPath, Portable;
  }
}
