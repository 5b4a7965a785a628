/** `JSON.stringify` on JSON values (section 7 of RFC 8259 for strings), and the proof that two
    values with the same text are the same. An object is the list of its properties, in order. */
module Json {
  import opened Text

  datatype Json =
    | Null
    | Bool(truth: bool)
    | Num(number: int)
    | Str(text: string)
    | Arr(items: seq<Json>)
    | Obj(members: seq<(string, Json)>)

  function HexDigit(n: nat): char
    requires n < 16
  {
    if n < 10 then '0' + n as char else 'a' + (n - 10) as char
  }

  function Escape(c: char): string {
    if c == '"' then ['\\', '"']
    else if c == '\\' then ['\\', '\\']
    else if c == '\n' then ['\\', 'n']
    else if c == '\r' then ['\\', 'r']
    else if c == '\t' then ['\\', 't']
    else if c as int == 8 then ['\\', 'b']
    else if c as int == 12 then ['\\', 'f']
    else if c as int < 32 then ['\\', 'u', '0', '0', HexDigit(c as int / 16), HexDigit(c as int % 16)]
    else [c]
  }

  /** The inside of a string literal and its closing quote. */
  function Quoted(s: string): string {
    if s == "" then ['"'] else Escape(s[0]) + Quoted(s[1..])
  }

  function Stringify(j: Json): string
  {
    match j
    case Null => "null"
    case Bool(truth) => if truth then "true" else "false"
    case Num(n) => if n < 0 then "-" + Decimal(-n) else Decimal(n)
    case Str(s) => ['"'] + Quoted(s)
    case Arr(items) => ['['] + (if items == [] then [']'] else Stringify(items[0]) + MoreItems(items[1..]))
    case Obj(members) =>
      ['{'] + (if members == [] then ['}'] else Member(members[0]) + MoreMembers(members[1..]))
  }

  /** The items of an array after the first, and its closing bracket. */
  function MoreItems(items: seq<Json>): string
  {
    if items == [] then [']'] else [','] + Stringify(items[0]) + MoreItems(items[1..])
  }

  function Member(m: (string, Json)): string
  {
    ['"'] + Quoted(m.0) + [':'] + Stringify(m.1)
  }

  function MoreMembers(members: seq<(string, Json)>): string
  {
    if members == [] then ['}'] else [','] + Member(members[0]) + MoreMembers(members[1..])
  }

  // ----- Reading is unambiguous -----

  /** What may follow a value inside a text. */
  predicate Stops(x: string) {
    x == "" || x[0] == ',' || x[0] == ']' || x[0] == '}'
  }

  lemma EscapeCancels(c: char, d: char, x: string, y: string)
    requires Escape(c) + x == Escape(d) + y
    ensures c == d && x == y
  {
    var s := Escape(c) + x;
    var t := Escape(d) + y;
    assert s[0] == Escape(c)[0] && t[0] == Escape(d)[0];
    if s[0] == '\\' {
      assert s[1] == Escape(c)[1] && t[1] == Escape(d)[1];
      if s[1] == 'u' {
        assert s[4] == Escape(c)[4] && s[5] == Escape(c)[5];
        assert t[4] == Escape(d)[4] && t[5] == Escape(d)[5];
        assert c as int / 16 == d as int / 16 && c as int % 16 == d as int % 16;
      }
    }
    assert c == d;
    assert x == s[|Escape(c)|..] && y == t[|Escape(d)|..];
  }

  lemma QuotedStarts(s: string, x: string)
    ensures Quoted(s) != "" && (Quoted(s)[0] == '"' <==> s == "")
    ensures (Quoted(s) + x)[0] == Quoted(s)[0]
    ensures s != "" ==> Quoted(s) + x == Escape(s[0]) + (Quoted(s[1..]) + x)
  {
  }

  lemma {:induction false} QuotedCancels(a: string, b: string, x: string, y: string)
    requires Quoted(a) + x == Quoted(b) + y
    ensures a == b && x == y
  {
    QuotedStarts(a, x);
    QuotedStarts(b, y);
    if a == "" {
      HeadCancels('"', x, y);
    } else {
      hide Quoted, Escape;
      EscapeCancels(a[0], b[0], Quoted(a[1..]) + x, Quoted(b[1..]) + y);
      QuotedCancels(a[1..], b[1..], x, y);
      Reassemble(a, b);
    }
  }

  lemma HeadCancels(c: char, x: string, y: string)
    requires [c] + x == [c] + y
    ensures x == y
  {
    assert x == ([c] + x)[1..] && y == ([c] + y)[1..];
  }

  predicate StartsWithDigit(s: string) {
    s != "" && IsDigit(s[0])
  }

  lemma {:induction false} DigitsCancel(p: string, q: string, x: string, y: string)
    requires AllDigits(p) && AllDigits(q) && Stops(x) && Stops(y)
    requires p + x == q + y
    ensures p == q && x == y
  {
    assert StartsWithDigit(p + x) == (p != "");
    assert StartsWithDigit(q + y) == (q != "");
    if p == "" {
      assert "" + x == x && "" + y == y;
    } else {
      assert (p + x)[0] == p[0] && (q + y)[0] == q[0];
      assert (p + x)[1..] == p[1..] + x && (q + y)[1..] == q[1..] + y;
      DigitsCancel(p[1..], q[1..], x, y);
      assert p == [p[0]] + p[1..] && q == [q[0]] + q[1..];
    }
  }

  lemma NumbersCancel(a: int, b: int, x: string, y: string)
    requires Stops(x) && Stops(y)
    requires Stringify(Num(a)) + x == Stringify(Num(b)) + y
    ensures a == b && x == y
  {
    var p := Decimal(if a < 0 then -a else a);
    var q := Decimal(if b < 0 then -b else b);
    var s := Stringify(Num(a)) + x;
    assert s[0] == Stringify(Num(a))[0] == Stringify(Num(b))[0];
    if a < 0 {
      assert s[1..] == p + x;
      assert s[1..] == q + y;
    }
    DigitsCancel(p, q, x, y);
    ParsePrintedDecimal(if a < 0 then -a else a);
    ParsePrintedDecimal(if b < 0 then -b else b);
  }

  /** The first character tells the constructors apart. */
  function Tag(j: Json): char {
    match j
    case Null => 'n'
    case Bool(truth) => if truth then 't' else 'f'
    case Num(n) => '0'
    case Str(s) => '"'
    case Arr(items) => '['
    case Obj(members) => '{'
  }

  lemma FirstTells(j: Json)
    ensures Stringify(j) != ""
    ensures var c := Stringify(j)[0]; c == Tag(j) || (j.Num? && (IsDigit(c) || c == '-'))
  {
  }

  lemma {:induction false} ValueCancels(a: Json, b: Json, x: string, y: string)
    requires Stops(x) && Stops(y)
    requires Stringify(a) + x == Stringify(b) + y
    ensures a == b && x == y
    decreases a
  {
    hide Quoted, MoreItems, Member, MoreMembers, Decimal, ParseDecimal, Escape;
    var s := Stringify(a) + x;
    FirstTells(a);
    FirstTells(b);
    assert s[0] == Stringify(a)[0] == Stringify(b)[0];
    match a
    case Null => assert x == s[4..] && y == s[4..];
    case Bool(truth) =>
      var n := |Stringify(a)|;
      assert x == s[n..] && y == s[n..];
    case Num(n) => NumbersCancel(n, b.number, x, y);
    case Str(text) =>
      assert s[1..] == Quoted(text) + x;
      assert s[1..] == Quoted(b.text) + y;
      QuotedCancels(text, b.text, x, y);
    case Arr(items) =>
      assert s[1..] == Stringify(a)[1..] + x;
      assert s[1..] == Stringify(b)[1..] + y;
      ItemsCancel(items, b.items, x, y);
    case Obj(members) =>
      assert s[1..] == Stringify(a)[1..] + x;
      assert s[1..] == Stringify(b)[1..] + y;
      MembersCancel(members, b.members, x, y);
  }

  /** Where the array's, or the object's, closing bracket can come, it says the list is empty. */
  lemma ItemsStart(a: seq<Json>, x: string)
    ensures var s := Stringify(Arr(a))[1..]; s != "" && (s[0] == ']' <==> a == []) && (s + x)[0] == s[0]
    ensures a != [] ==> Stringify(Arr(a))[1..] + x == Stringify(a[0]) + (MoreItems(a[1..]) + x)
    ensures a == [] ==> Stringify(Arr(a))[1..] + x == [']'] + x
  {
    if a != [] {
      FirstTells(a[0]);
      assert Stringify(Arr(a))[1..] == Stringify(a[0]) + MoreItems(a[1..]);
    }
  }

  lemma MoreItemsStart(a: seq<Json>, x: string)
    ensures var s := MoreItems(a); s != "" && s[0] == (if a == [] then ']' else ',') && (s + x)[0] == s[0]
    ensures a != [] ==> MoreItems(a) + x == [','] + (Stringify(a[0]) + (MoreItems(a[1..]) + x))
    ensures Stops(MoreItems(a) + x)
  {
    hide Stringify;
  }

  lemma MembersStart(a: seq<(string, Json)>, x: string)
    ensures var s := Stringify(Obj(a))[1..]; s != "" && (s[0] == '}' <==> a == []) && (s + x)[0] == s[0]
    ensures a != [] ==> Stringify(Obj(a))[1..] + x == Member(a[0]) + (MoreMembers(a[1..]) + x)
    ensures a == [] ==> Stringify(Obj(a))[1..] + x == ['}'] + x
  {
    if a != [] {
      assert Stringify(Obj(a))[1..] == Member(a[0]) + MoreMembers(a[1..]);
    }
  }

  lemma MoreMembersStart(a: seq<(string, Json)>, x: string)
    ensures var s := MoreMembers(a); s != "" && s[0] == (if a == [] then '}' else ',') && (s + x)[0] == s[0]
    ensures a != [] ==> MoreMembers(a) + x == [','] + (Member(a[0]) + (MoreMembers(a[1..]) + x))
    ensures Stops(MoreMembers(a) + x)
  {
    hide Member, Stringify;
  }

  lemma MemberUnfolds(m: (string, Json), x: string)
    ensures Member(m) + x == ['"'] + (Quoted(m.0) + ([':'] + (Stringify(m.1) + x)))
  {
  }

  lemma Reassemble<T>(a: seq<T>, b: seq<T>)
    requires a != [] && b != [] && a[0] == b[0] && a[1..] == b[1..]
    ensures a == b
  {
    assert a == [a[0]] + a[1..] && b == [b[0]] + b[1..];
  }

  lemma {:induction false} ItemsCancel(a: seq<Json>, b: seq<Json>, x: string, y: string)
    requires Stringify(Arr(a))[1..] + x == Stringify(Arr(b))[1..] + y
    ensures a == b && x == y
    decreases a, 1
  {
    ItemsStart(a, x);
    ItemsStart(b, y);
    hide Stringify, MoreItems;
    if a == [] {
      HeadCancels(']', x, y);
    } else {
      MoreItemsStart(a[1..], x);
      MoreItemsStart(b[1..], y);
      ValueCancels(a[0], b[0], MoreItems(a[1..]) + x, MoreItems(b[1..]) + y);
      MoreItemsCancel(a[1..], b[1..], x, y);
      Reassemble(a, b);
    }
  }

  lemma {:induction false} MoreItemsCancel(a: seq<Json>, b: seq<Json>, x: string, y: string)
    requires MoreItems(a) + x == MoreItems(b) + y
    ensures a == b && x == y
    decreases a, 0
  {
    MoreItemsStart(a, x);
    MoreItemsStart(b, y);
    if a == [] {
      HeadCancels(']', x, y);
    } else {
      hide Stringify, MoreItems;
      MoreItemsStart(a[1..], x);
      MoreItemsStart(b[1..], y);
      HeadCancels(',', Stringify(a[0]) + (MoreItems(a[1..]) + x), Stringify(b[0]) + (MoreItems(b[1..]) + y));
      ValueCancels(a[0], b[0], MoreItems(a[1..]) + x, MoreItems(b[1..]) + y);
      MoreItemsCancel(a[1..], b[1..], x, y);
      Reassemble(a, b);
    }
  }

  lemma {:induction false} MemberCancels(a: (string, Json), b: (string, Json), x: string, y: string)
    requires Stops(x) && Stops(y)
    requires Member(a) + x == Member(b) + y
    ensures a == b && x == y
    decreases a
  {
    MemberUnfolds(a, x);
    MemberUnfolds(b, y);
    hide Member, Stringify, Quoted;
    var p := Stringify(a.1) + x;
    var q := Stringify(b.1) + y;
    HeadCancels('"', Quoted(a.0) + ([':'] + p), Quoted(b.0) + ([':'] + q));
    QuotedCancels(a.0, b.0, [':'] + p, [':'] + q);
    HeadCancels(':', p, q);
    ValueCancels(a.1, b.1, x, y);
  }

  lemma {:induction false} MembersCancel(a: seq<(string, Json)>, b: seq<(string, Json)>, x: string, y: string)
    requires Stringify(Obj(a))[1..] + x == Stringify(Obj(b))[1..] + y
    ensures a == b && x == y
    decreases a, 1
  {
    MembersStart(a, x);
    MembersStart(b, y);
    hide Stringify, Member, MoreMembers;
    if a == [] {
      HeadCancels('}', x, y);
    } else {
      MoreMembersStart(a[1..], x);
      MoreMembersStart(b[1..], y);
      MemberCancels(a[0], b[0], MoreMembers(a[1..]) + x, MoreMembers(b[1..]) + y);
      MoreMembersCancel(a[1..], b[1..], x, y);
      Reassemble(a, b);
    }
  }

  lemma {:induction false} MoreMembersCancel(a: seq<(string, Json)>, b: seq<(string, Json)>, x: string, y: string)
    requires MoreMembers(a) + x == MoreMembers(b) + y
    ensures a == b && x == y
    decreases a, 0
  {
    MoreMembersStart(a, x);
    MoreMembersStart(b, y);
    if a == [] {
      HeadCancels('}', x, y);
    } else {
      hide Stringify, Member, MoreMembers;
      MoreMembersStart(a[1..], x);
      MoreMembersStart(b[1..], y);
      HeadCancels(',', Member(a[0]) + (MoreMembers(a[1..]) + x), Member(b[0]) + (MoreMembers(b[1..]) + y));
      MemberCancels(a[0], b[0], MoreMembers(a[1..]) + x, MoreMembers(b[1..]) + y);
      MoreMembersCancel(a[1..], b[1..], x, y);
      Reassemble(a, b);
    }
  }

  /** Two values have the same text exactly when they are the same. */
  lemma SameTextIffSame(a: Json, b: Json)
    ensures Stringify(a) == Stringify(b) <==> a == b
  {
    if Stringify(a) == Stringify(b) {
      assert Stringify(a) + "" == Stringify(b) + "";
      ValueCancels(a, b, "", "");
    }
  }
}
