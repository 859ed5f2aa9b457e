/** `json.dumps` with compact separators and `ensure_ascii=False`: the text of a
    value, and the fact that the text determines the value. Strings are escaped as
    section 7 of RFC 8259 asks, with Python's choice of escapes. */
module JsonText {
  import opened Json

  function Digit(d: nat): char
    requires d < 10
  {
    ('0' as int + d) as char
  }

  function Digits(n: nat): (t: string)
    ensures t != [] && forall i | 0 <= i < |t| :: '0' <= t[i] <= '9'
  {
    if n < 10 then [Digit(n)] else Digits(n / 10) + [Digit(n % 10)]
  }

  function IntText(n: int): string {
    if n < 0 then "-" + Digits(-n) else Digits(n)
  }

  function HexDigit(d: nat): char
    requires d < 16
  {
    if d < 10 then ('0' as int + d) as char else ('a' as int + (d - 10)) as char
  }

  function Escape(c: char): (t: string)
    ensures t != [] && t[0] != '\"'
  {
    if c == '\"' then "\\\""
    else if c == '\\' then "\\\\"
    else if c == '\n' then "\\n"
    else if c == '\r' then "\\r"
    else if c == '\t' then "\\t"
    else if c == 8 as char then "\\b"
    else if c == 12 as char then "\\f"
    else if c < ' ' then "\\u00" + [HexDigit(c as int / 16), HexDigit(c as int % 16)]
    else [c]
  }

  function EscapeAll(s: string): string {
    if s == [] then "" else Escape(s[0]) + EscapeAll(s[1..])
  }

  function Quoted(s: string): string {
    "\"" + EscapeAll(s) + "\""
  }

  /** The text of a value, members in the order they stand. */
  function Print(j: Json): string
    decreases j, 1
  {
    match j
    case Null => "null"
    case Bool(b) => if b then "true" else "false"
    case Int(n) => IntText(n)
    case Str(s) => Quoted(s)
    case Arr(items) => "[" + PrintItems(items) + "]"
    case Obj(ms) => "{" + PrintMembers(ms) + "}"
  }

  function PrintItems(items: seq<Json>): string
    decreases items, 0
  {
    if items == [] then ""
    else if |items| == 1 then Print(items[0])
    else Print(items[0]) + "," + PrintItems(items[1..])
  }

  function PrintMember(m: Member): string
    decreases m, 0
  {
    Quoted(m.key) + ":" + Print(m.value)
  }

  function PrintMembers(ms: seq<Member>): string
    decreases ms, 0
  {
    if ms == [] then ""
    else if |ms| == 1 then PrintMember(ms[0])
    else PrintMember(ms[0]) + "," + PrintMembers(ms[1..])
  }

  // ------------------------------------------------------------------ numbers

  function Value(t: string): int {
    if t == [] then 0 else 10 * Value(t[..|t| - 1]) + (t[|t| - 1] as int - '0' as int)
  }

  lemma {:induction false} ValueOfDigits(n: nat)
    ensures Value(Digits(n)) == n
  {
    var t := Digits(n);
    if n >= 10 {
      ValueOfDigits(n / 10);
      assert t[..|t| - 1] == Digits(n / 10);
    } else {
      assert t[..|t| - 1] == "";
    }
  }

  /** What may follow a value inside a larger text. A number has no closing
      delimiter of its own, so its end shows only in what comes next. */
  predicate Guarded(rest: string) {
    rest == "" || rest[0] == ',' || rest[0] == ']' || rest[0] == '}'
  }

  /** Two splits of one text: past the end of the shorter head stands its tail. */
  lemma SplitPoint(a: string, b: string, s: string, t: string)
    requires a + s == b + t
    ensures |a| < |b| ==> s != "" && s[0] == b[|a|]
    ensures |a| == |b| ==> a == b && s == t
  {
    assert a == (a + s)[..|a|] && s == (a + s)[|a|..];
    assert b == (b + t)[..|b|] && t == (b + t)[|b|..];
  }

  lemma DigitsInjective(n: nat, m: nat, s: string, t: string)
    requires Digits(n) + s == Digits(m) + t
    requires Guarded(s) && Guarded(t)
    ensures n == m && s == t
  {
    SplitPoint(Digits(n), Digits(m), s, t);
    SplitPoint(Digits(m), Digits(n), t, s);
    ValueOfDigits(n);
    ValueOfDigits(m);
  }

  lemma Assoc(a: string, b: string, c: string)
    ensures a + b + c == a + (b + c)
  {
  }

  lemma IntInjective(n: int, m: int, s: string, t: string)
    requires IntText(n) + s == IntText(m) + t
    requires Guarded(s) && Guarded(t)
    ensures n == m && s == t
  {
    assert (IntText(n) + s)[0] == IntText(n)[0] && (IntText(m) + t)[0] == IntText(m)[0];
    if n < 0 {
      Assoc("-", Digits(-n), s);
      Assoc("-", Digits(-m), t);
      SplitPoint("-", "-", Digits(-n) + s, Digits(-m) + t);
      DigitsInjective(-n, -m, s, t);
    } else {
      DigitsInjective(n, m, s, t);
    }
  }

  // ------------------------------------------------------------------ strings

  lemma EscapeInjective(c: char, d: char, s: string, t: string)
    requires Escape(c) + s == Escape(d) + t
    ensures c == d && s == t
  {
    var whole := Escape(c) + s;
    assert whole == Escape(d) + t;
    assert whole[0] == Escape(c)[0] && whole[0] == Escape(d)[0];
    if |Escape(c)| > 1 {
      assert whole[1] == Escape(c)[1] && whole[1] == Escape(d)[1];
      if |Escape(c)| == 6 {
        assert whole[4] == Escape(c)[4] && whole[4] == Escape(d)[4];
        assert whole[5] == Escape(c)[5] && whole[5] == Escape(d)[5];
      }
    }
    assert s == whole[|Escape(c)|..];
    assert t == whole[|Escape(d)|..];
  }

  /** A string's text up to and with its closing quote, then `rest`. */
  function EscapeTo(s: string, rest: string): string {
    if s == "" then "\"" + rest else Escape(s[0]) + EscapeTo(s[1..], rest)
  }

  lemma {:induction false} EscapeToIs(s: string, rest: string)
    ensures EscapeTo(s, rest) == EscapeAll(s) + "\"" + rest
  {
    if s != "" {
      EscapeToIs(s[1..], rest);
    }
  }

  /** Up to its closing quote, a string's text determines the string. */
  lemma {:induction false} EscapeToInjective(x: string, y: string, s: string, t: string)
    requires EscapeTo(x, s) == EscapeTo(y, t)
    ensures x == y && s == t
  {
    assert EscapeTo(x, s)[0] == EscapeTo(y, t)[0];
    if x == "" && y == "" {
      SplitPoint("\"", "\"", s, t);
    } else if x == "" || y == "" {
      assert false;
    } else {
      EscapeInjective(x[0], y[0], EscapeTo(x[1..], s), EscapeTo(y[1..], t));
      EscapeToInjective(x[1..], y[1..], s, t);
      assert x == [x[0]] + x[1..] && y == [y[0]] + y[1..];
    }
  }

  // ------------------------------------------------------------------- values

  /** `Print(j)` followed by `rest`, written from the back: every step puts a
      token in front of text that is already there. */
  function PrintTo(j: Json, rest: string): string
    decreases j, 1
  {
    match j
    case Null => "null" + rest
    case Bool(b) => (if b then "true" else "false") + rest
    case Int(n) => IntText(n) + rest
    case Str(s) => "\"" + EscapeTo(s, rest)
    case Arr(items) => "[" + ArrayTo(items, rest)
    case Obj(ms) => "{" + ObjectTo(ms, rest)
  }

  /** An array after its opening bracket. */
  function ArrayTo(items: seq<Json>, rest: string): string
    decreases items, 1
  {
    if items == [] then "]" + rest else PrintTo(items[0], ItemsTo(items[1..], rest))
  }

  function ObjectTo(ms: seq<Member>, rest: string): string
    decreases ms, 1
  {
    if ms == [] then "}" + rest else MemberTo(ms[0], MembersTo(ms[1..], rest))
  }

  function ItemsTo(items: seq<Json>, rest: string): string
    decreases items, 0
  {
    if items == [] then "]" + rest else "," + PrintTo(items[0], ItemsTo(items[1..], rest))
  }

  function MemberTo(m: Member, rest: string): string
    decreases m, 0
  {
    "\"" + EscapeTo(m.key, ":" + PrintTo(m.value, rest))
  }

  function MembersTo(ms: seq<Member>, rest: string): string
    decreases ms, 0
  {
    if ms == [] then "}" + rest else "," + MemberTo(ms[0], MembersTo(ms[1..], rest))
  }

  /** The first character of a value's text tells its constructor. */
  function Kind(j: Json): (k: nat) {
    match j
    case Null => 0
    case Bool(b) => if b then 1 else 2
    case Int(_) => 3
    case Str(_) => 4
    case Arr(_) => 5
    case Obj(_) => 6
  }

  function KindOfChar(c: char): nat {
    if c == 'n' then 0 else if c == 't' then 1 else if c == 'f' then 2
    else if c == '-' || '0' <= c <= '9' then 3
    else if c == '\"' then 4 else if c == '[' then 5 else if c == '{' then 6 else 7
  }

  lemma FirstChar(j: Json, rest: string)
    ensures PrintTo(j, rest) != "" && KindOfChar(PrintTo(j, rest)[0]) == Kind(j)
  {
  }

  /** Equal texts, each followed by something that may follow a value, are texts
      of equal values. */
  lemma {:induction false} PrintToInjective(a: Json, b: Json, s: string, t: string)
    requires PrintTo(a, s) == PrintTo(b, t)
    requires Guarded(s) && Guarded(t)
    ensures a == b && s == t
    decreases a, 1
  {
    FirstChar(a, s);
    FirstChar(b, t);
    match a
    case Null => SplitPoint("null", "null", s, t);
    case Bool(v) => SplitPoint(Print(a), Print(b), s, t);
    case Int(n) => IntInjective(n, b.n, s, t);
    case Str(x) =>
      SplitPoint("\"", "\"", EscapeTo(x, s), EscapeTo(b.s, t));
      EscapeToInjective(x, b.s, s, t);
    case Arr(items) =>
      SplitPoint("[", "[", PrintTo(a, s)[1..], PrintTo(b, t)[1..]);
      ArrayInjective(items, b.items, s, t);
    case Obj(ms) =>
      SplitPoint("{", "{", PrintTo(a, s)[1..], PrintTo(b, t)[1..]);
      ObjectInjective(ms, b.members, s, t);
  }

  lemma {:induction false} ArrayInjective(xs: seq<Json>, ys: seq<Json>, s: string, t: string)
    requires ArrayTo(xs, s) == ArrayTo(ys, t)
    requires Guarded(s) && Guarded(t)
    ensures xs == ys && s == t
    decreases xs, 1
  {
    if xs != [] {
      FirstChar(xs[0], ItemsTo(xs[1..], s));
    }
    if ys != [] {
      FirstChar(ys[0], ItemsTo(ys[1..], t));
    }
    if xs == [] && ys == [] {
      SplitPoint("]", "]", s, t);
    } else if xs == [] || ys == [] {
      assert false;
    } else {
      PrintToInjective(xs[0], ys[0], ItemsTo(xs[1..], s), ItemsTo(ys[1..], t));
      ItemsInjective(xs[1..], ys[1..], s, t);
      assert xs == [xs[0]] + xs[1..] && ys == [ys[0]] + ys[1..];
    }
  }

  lemma {:induction false} ItemsInjective(xs: seq<Json>, ys: seq<Json>, s: string, t: string)
    requires ItemsTo(xs, s) == ItemsTo(ys, t)
    requires Guarded(s) && Guarded(t)
    ensures xs == ys && s == t
    decreases xs, 0
  {
    assert ItemsTo(xs, s)[0] == ItemsTo(ys, t)[0];
    if xs == [] && ys == [] {
      SplitPoint("]", "]", s, t);
    } else if xs == [] || ys == [] {
      assert false;
    } else {
      var s', t' := ItemsTo(xs[1..], s), ItemsTo(ys[1..], t);
      SplitPoint(",", ",", PrintTo(xs[0], s'), PrintTo(ys[0], t'));
      PrintToInjective(xs[0], ys[0], s', t');
      ItemsInjective(xs[1..], ys[1..], s, t);
      assert xs == [xs[0]] + xs[1..] && ys == [ys[0]] + ys[1..];
    }
  }

  lemma ObjectHead(ms: seq<Member>, s: string)
    ensures var text := ObjectTo(ms, s);
      text != "" && text[0] == if ms == [] then '}' else '\"'
  {
  }

  lemma {:induction false} ObjectInjective(ms: seq<Member>, ns: seq<Member>, s: string, t: string)
    requires ObjectTo(ms, s) == ObjectTo(ns, t)
    requires Guarded(s) && Guarded(t)
    ensures ms == ns && s == t
    decreases ms, 1
  {
    ObjectHead(ms, s);
    ObjectHead(ns, t);
    if ms == [] && ns == [] {
      SplitPoint("}", "}", s, t);
    } else if ms == [] || ns == [] {
      assert false;
    } else {
      MemberInjective(ms[0], ns[0], MembersTo(ms[1..], s), MembersTo(ns[1..], t));
      MembersInjective(ms[1..], ns[1..], s, t);
      assert ms == [ms[0]] + ms[1..] && ns == [ns[0]] + ns[1..];
    }
  }

  lemma {:induction false} MemberInjective(m: Member, n: Member, s: string, t: string)
    requires MemberTo(m, s) == MemberTo(n, t)
    requires Guarded(s) && Guarded(t)
    ensures m == n && s == t
    decreases m, 0
  {
    var x, y := PrintTo(m.value, s), PrintTo(n.value, t);
    SplitPoint("\"", "\"", EscapeTo(m.key, ":" + x), EscapeTo(n.key, ":" + y));
    EscapeToInjective(m.key, n.key, ":" + x, ":" + y);
    SplitPoint(":", ":", x, y);
    PrintToInjective(m.value, n.value, s, t);
  }

  lemma {:induction false} MembersInjective(ms: seq<Member>, ns: seq<Member>, s: string, t: string)
    requires MembersTo(ms, s) == MembersTo(ns, t)
    requires Guarded(s) && Guarded(t)
    ensures ms == ns && s == t
    decreases ms, 0
  {
    assert MembersTo(ms, s)[0] == MembersTo(ns, t)[0];
    if ms == [] && ns == [] {
      SplitPoint("}", "}", s, t);
    } else if ms == [] || ns == [] {
      assert false;
    } else {
      var s', t' := MembersTo(ms[1..], s), MembersTo(ns[1..], t);
      SplitPoint(",", ",", MemberTo(ms[0], s'), MemberTo(ns[0], t'));
      MemberInjective(ms[0], ns[0], s', t');
      MembersInjective(ms[1..], ns[1..], s, t);
      assert ms == [ms[0]] + ms[1..] && ns == [ns[0]] + ns[1..];
    }
  }

  // -------------------------------------------------- the two printers agree

  lemma {:induction false} PrintToIs(j: Json, rest: string)
    ensures PrintTo(j, rest) == Print(j) + rest
    decreases j, 1
  {
    match j
    case Str(s) =>
      EscapeToIs(s, rest);
      Assoc("\"", EscapeAll(s) + "\"", rest);
    case Arr(items) => ArrayToIs(items, rest);
    case Obj(ms) => ObjectToIs(ms, rest);
    case _ =>
  }

  lemma {:induction false} ArrayToIs(items: seq<Json>, rest: string)
    ensures PrintTo(Arr(items), rest) == Print(Arr(items)) + rest
    decreases items, 1
  {
    Bracketed("[", PrintItems(items), "]", rest);
    if items != [] {
      PrintToIs(items[0], ItemsTo(items[1..], rest));
      ItemsToIs(items[1..], rest);
      Assoc(Print(items[0]), "," + PrintItems(items[1..]), "]" + rest);
      Assoc(Print(items[0]), ",", PrintItems(items[1..]));
    }
  }

  lemma {:induction false} ItemsToIs(items: seq<Json>, rest: string)
    ensures ItemsTo(items, rest) == (if items == [] then "" else "," + PrintItems(items)) + ("]" + rest)
    decreases items, 0
  {
    if items != [] {
      PrintToIs(items[0], ItemsTo(items[1..], rest));
      ItemsToIs(items[1..], rest);
      Assoc(Print(items[0]), "," + PrintItems(items[1..]), "]" + rest);
      Assoc(Print(items[0]), ",", PrintItems(items[1..]));
      Assoc(",", PrintItems(items), "]" + rest);
    }
  }

  lemma {:induction false} MemberToIs(m: Member, rest: string)
    ensures MemberTo(m, rest) == PrintMember(m) + rest
    decreases m, 0
  {
    PrintToIs(m.value, rest);
    EscapeToIs(m.key, ":" + PrintTo(m.value, rest));
    Assoc(":", Print(m.value), rest);
    Assoc("\"", EscapeAll(m.key) + "\"", ":" + PrintTo(m.value, rest));
    Assoc(Quoted(m.key), ":" + Print(m.value), rest);
    Assoc(Quoted(m.key), ":", Print(m.value));
  }

  lemma {:induction false} ObjectToIs(ms: seq<Member>, rest: string)
    ensures PrintTo(Obj(ms), rest) == Print(Obj(ms)) + rest
    decreases ms, 1
  {
    Bracketed("{", PrintMembers(ms), "}", rest);
    if ms != [] {
      MemberToIs(ms[0], MembersTo(ms[1..], rest));
      MembersToIs(ms[1..], rest);
      Assoc(PrintMember(ms[0]), "," + PrintMembers(ms[1..]), "}" + rest);
      Assoc(PrintMember(ms[0]), ",", PrintMembers(ms[1..]));
    }
  }

  lemma {:induction false} MembersToIs(ms: seq<Member>, rest: string)
    ensures MembersTo(ms, rest) == (if ms == [] then "" else "," + PrintMembers(ms)) + ("}" + rest)
    decreases ms, 0
  {
    if ms != [] {
      MemberToIs(ms[0], MembersTo(ms[1..], rest));
      MembersToIs(ms[1..], rest);
      Assoc(PrintMember(ms[0]), "," + PrintMembers(ms[1..]), "}" + rest);
      Assoc(PrintMember(ms[0]), ",", PrintMembers(ms[1..]));
      Assoc(",", PrintMembers(ms), "}" + rest);
    }
  }

  lemma Bracketed(open: string, body: string, close: string, rest: string)
    ensures open + body + close + rest == open + (body + (close + rest))
  {
  }

  /** The text determines the value: nothing else prints the same. */
  lemma PrintInjective(a: Json, b: Json)
    requires Print(a) == Print(b)
    ensures a == b
  {
    PrintToIs(a, "");
    PrintToIs(b, "");
    assert Print(a) + "" == Print(a) && Print(b) + "" == Print(b);
    PrintToInjective(a, b, "", "");
  }
}
