/** A reader of JSON texts after the grammar of RFC 8259 (without white space, and
    without fractions and exponents), and the round trip: what the printer writes,
    the reader reads back. */
module JsonRead {
  import opened Text
  import opened Json
  import opened JsonText

  /** What was read, and the text that is left. */
  datatype Read<T> = Bad | Good(value: T, rest: string)

  // ------------------------------------------------------------------ strings

  function HexValue(c: char): Option<nat> {
    if '0' <= c <= '9' then Some(c as int - '0' as int)
    else if 'a' <= c <= 'f' then Some(c as int - 'a' as int + 10)
    else if 'A' <= c <= 'F' then Some(c as int - 'A' as int + 10)
    else None
  }

  /** The character of an escape, after its backslash (section 7). */
  function ReadEscape(t: string): (r: Read<char>)
    ensures r.Good? ==> |r.rest| < |t|
  {
    if t == "" then Bad
    else if t[0] == 'n' then Good('\n', t[1..])
    else if t[0] == 'r' then Good('\r', t[1..])
    else if t[0] == 't' then Good('\t', t[1..])
    else if t[0] == 'b' then Good('\U{08}', t[1..])
    else if t[0] == 'f' then Good('\U{0C}', t[1..])
    else if t[0] == '\"' || t[0] == '\\' || t[0] == '/' then Good(t[0], t[1..])
    else if t[0] == 'u' && |t| >= 5 && t[1] == '0' && t[2] == '0' && HexValue(t[3]).Some? && HexValue(t[4]).Some? then
      Good((16 * HexValue(t[3]).value + HexValue(t[4]).value) as char, t[5..])
    else Bad
  }

  /** A string up to and with its closing quote. */
  function ReadString(t: string): (r: Read<string>)
    ensures r.Good? ==> |r.rest| < |t|
    decreases |t|
  {
    if t == "" || t[0] < ' ' then Bad
    else if t[0] == '\"' then Good("", t[1..])
    else
      var one := if t[0] == '\\' then ReadEscape(t[1..]) else Good(t[0], t[1..]);
      if one.Bad? then Bad
      else
        var more := ReadString(one.rest);
        if more.Bad? then Bad else Good([one.value] + more.value, more.rest)
  }

  // ------------------------------------------------------------------ numbers

  /** How many digits stand at the front. */
  function Span(t: string): (n: nat)
    ensures n <= |t|
  {
    if t != "" && '0' <= t[0] <= '9' then 1 + Span(t[1..]) else 0
  }

  function ReadInt(t: string): (r: Read<Json>)
    ensures r.Good? ==> |r.rest| < |t|
  {
    if t != "" && t[0] == '-' then
      var n := Span(t[1..]);
      if n == 0 then Bad else Good(Int(-Value(t[1..][..n])), t[1..][n..])
    else
      var n := Span(t);
      if n == 0 then Bad else Good(Int(Value(t[..n])), t[n..])
  }

  // ------------------------------------------------------------------- values

  function ReadWord(t: string, word: string, j: Json): (r: Read<Json>)
    requires word != ""
    ensures r.Good? ==> |r.rest| < |t|
  {
    if HasPrefix(t, word) then Good(j, t[|word|..]) else Bad
  }

  /** The first character tells what to read. */
  function ReadValue(t: string): (r: Read<Json>)
    ensures r.Good? ==> |r.rest| < |t|
    decreases |t|, 1
  {
    if t == "" then Bad
    else if t[0] == 'n' then ReadWord(t, "null", Null)
    else if t[0] == 't' then ReadWord(t, "true", Bool(true))
    else if t[0] == 'f' then ReadWord(t, "false", Bool(false))
    else if t[0] == '\"' then
      var s := ReadString(t[1..]);
      if s.Bad? then Bad else Good(Str(s.value), s.rest)
    else if t[0] == '[' then ReadArray(t[1..])
    else if t[0] == '{' then ReadObject(t[1..])
    else ReadInt(t)
  }

  /** An array after its opening bracket. */
  function ReadArray(t: string): (r: Read<Json>)
    ensures r.Good? ==> |r.rest| < |t|
    decreases |t|, 3
  {
    if t != "" && t[0] == ']' then Good(Arr([]), t[1..])
    else
      var items := ReadItems(t);
      if items.Bad? then Bad else Good(Arr(items.value), items.rest)
  }

  function ReadObject(t: string): (r: Read<Json>)
    ensures r.Good? ==> |r.rest| < |t|
    decreases |t|, 4
  {
    if t != "" && t[0] == '}' then Good(Obj([]), t[1..])
    else
      var ms := ReadMembers(t);
      if ms.Bad? then Bad else Good(Obj(ms.value), ms.rest)
  }

  /** One item or more, up to and with the closing bracket. */
  function ReadItems(t: string): (r: Read<seq<Json>>)
    ensures r.Good? ==> |r.rest| < |t|
    decreases |t|, 2
  {
    var item := ReadValue(t);
    if item.Bad? || item.rest == "" then Bad
    else if item.rest[0] == ']' then Good([item.value], item.rest[1..])
    else if item.rest[0] == ',' then
      var more := ReadItems(item.rest[1..]);
      if more.Bad? then Bad else Good([item.value] + more.value, more.rest)
    else Bad
  }

  function ReadMember(t: string): (r: Read<Member>)
    ensures r.Good? ==> |r.rest| < |t|
    decreases |t|, 2
  {
    if t == "" || t[0] != '\"' then Bad
    else
      var key := ReadString(t[1..]);
      if key.Bad? || key.rest == "" || key.rest[0] != ':' then Bad
      else
        var value := ReadValue(key.rest[1..]);
        if value.Bad? then Bad else Good(Member(key.value, value.value), value.rest)
  }

  function ReadMembers(t: string): (r: Read<seq<Member>>)
    ensures r.Good? ==> |r.rest| < |t|
    decreases |t|, 3
  {
    var m := ReadMember(t);
    if m.Bad? || m.rest == "" then Bad
    else if m.rest[0] == '}' then Good([m.value], m.rest[1..])
    else if m.rest[0] == ',' then
      var more := ReadMembers(m.rest[1..]);
      if more.Bad? then Bad else Good([m.value] + more.value, more.rest)
    else Bad
  }

  // --------------------------------------------------------------- round trip

  lemma EscapeReads(c: char, rest: string)
    ensures var t := Escape(c) + rest;
      if t[0] == '\\' then ReadEscape(t[1..]) == Good(c, rest) else t[0] == c && c >= ' ' && t[1..] == rest
  {
    var e := Escape(c);
    assert (e + rest)[1..] == e[1..] + rest;
    assert e[1..] + rest == if |e| == 1 then rest else [e[1]] + (e[2..] + rest);
    if |e| == 6 {
      assert (e[1..] + rest)[5..] == rest;
      assert c as int == 16 * (c as int / 16) + c as int % 16;
    }
  }

  lemma {:induction false} StringReads(s: string, rest: string)
    ensures ReadString(EscapeTo(s, rest)) == Good(s, rest)
    decreases |s|
  {
    if s == "" {
      assert ("\"" + rest)[1..] == rest;
    } else {
      StringReads(s[1..], rest);
      EscapeReads(s[0], EscapeTo(s[1..], rest));
      assert s == [s[0]] + s[1..];
    }
  }

  lemma {:induction false} SpanIs(t: string, rest: string)
    requires forall i | 0 <= i < |t| :: '0' <= t[i] <= '9'
    requires rest == "" || !('0' <= rest[0] <= '9')
    ensures Span(t + rest) == |t|
  {
    if t == "" {
      assert t + rest == rest;
    } else {
      assert (t + rest)[1..] == t[1..] + rest;
      SpanIs(t[1..], rest);
    }
  }

  lemma DigitsRead(n: nat, rest: string)
    requires Guarded(rest)
    ensures var t := Digits(n) + rest; Span(t) == |Digits(n)| && Value(t[..Span(t)]) == n && t[Span(t)..] == rest
  {
    ValueOfDigits(n);
    SpanIs(Digits(n), rest);
    assert (Digits(n) + rest)[..|Digits(n)|] == Digits(n);
  }

  lemma Front(c: char, rest: string)
    ensures ([c] + rest)[0] == c && ([c] + rest)[1..] == rest
  {
  }

  lemma NegativeReads(n: nat, rest: string)
    requires Guarded(rest)
    ensures ReadInt("-" + Digits(n) + rest) == Good(Int(0 - n), rest)
  {
    DigitsRead(n, rest);
    Assoc("-", Digits(n), rest);
    Front('-', Digits(n) + rest);
  }

  lemma NaturalReads(n: nat, rest: string)
    requires Guarded(rest)
    ensures ReadInt(Digits(n) + rest) == Good(Int(n), rest)
  {
    DigitsRead(n, rest);
    assert (Digits(n) + rest)[0] == Digits(n)[0];
  }

  lemma {:induction false} IntReads(n: int, rest: string)
    requires Guarded(rest)
    ensures ReadInt(IntText(n) + rest) == Good(Int(n), rest)
  {
    if n < 0 {
      NegativeReads(-n, rest);
    } else {
      NaturalReads(n, rest);
    }
  }

  lemma WordReads(word: string, rest: string, j: Json)
    requires word != ""
    ensures ReadWord(word + rest, word, j) == Good(j, rest) && (word + rest)[0] == word[0]
  {
  }

  /** The first character of a text decides, as the grammar has it. */
  lemma ReadsByFirst(c: char, rest: string)
    ensures c == '\"' ==> ReadValue([c] + rest) == (var s := ReadString(rest); if s.Bad? then Bad else Good(Str(s.value), s.rest))
    ensures c == '[' ==> ReadValue([c] + rest) == ReadArray(rest)
    ensures c == '{' ==> ReadValue([c] + rest) == ReadObject(rest)
  {
    Front(c, rest);
  }

  lemma {:induction false} ValueReads(j: Json, rest: string)
    requires Guarded(rest)
    ensures ReadValue(PrintTo(j, rest)) == Good(j, rest)
    decreases j, 1
  {
    match j
    case Str(s) =>
      StringReads(s, rest);
      ReadsByFirst('\"', EscapeTo(s, rest));
    case Arr(items) =>
      ArrayReads(items, rest);
      ReadsByFirst('[', ArrayTo(items, rest));
    case Obj(ms) =>
      ObjectReads(ms, rest);
      ReadsByFirst('{', ObjectTo(ms, rest));
    case _ => ScalarReads(j, rest);
  }

  lemma ScalarReads(j: Json, rest: string)
    requires Guarded(rest) && (j.Null? || j.Bool? || j.Int?)
    ensures ReadValue(PrintTo(j, rest)) == Good(j, rest)
  {
    FirstChar(j, rest);
    if j.Int? {
      IntReads(j.n, rest);
    } else if j.Null? {
      WordReads("null", rest, j);
    } else if j.b {
      WordReads("true", rest, j);
    } else {
      WordReads("false", rest, j);
    }
  }

  lemma {:induction false} ArrayReads(items: seq<Json>, rest: string)
    requires Guarded(rest)
    ensures ReadArray(ArrayTo(items, rest)) == Good(Arr(items), rest)
    decreases items, 2
  {
    if items == [] {
      Front(']', rest);
    } else {
      ItemsRead(items, rest);
      FirstChar(items[0], ItemsTo(items[1..], rest));
    }
  }

  lemma {:induction false} ItemsRead(items: seq<Json>, rest: string)
    requires Guarded(rest) && items != []
    ensures ReadItems(ArrayTo(items, rest)) == Good(items, rest)
    decreases items, 1
  {
    var more := items[1..];
    assert items == [items[0]] + more;
    ValueReads(items[0], ItemsTo(more, rest));
    if more == [] {
      assert items == [items[0]];
      Front(']', rest);
    } else {
      ItemsRead(more, rest);
      assert ItemsTo(more, rest) == [','] + ArrayTo(more, rest);
      Front(',', ArrayTo(more, rest));
    }
  }

  lemma {:induction false} MemberReads(m: Member, rest: string)
    requires Guarded(rest)
    ensures ReadMember(MemberTo(m, rest)) == Good(m, rest)
    decreases m, 0
  {
    var value := PrintTo(m.value, rest);
    ValueReads(m.value, rest);
    StringReads(m.key, ":" + value);
    Front('\"', EscapeTo(m.key, ":" + value));
    Front(':', value);
  }

  lemma {:induction false} MembersRead(ms: seq<Member>, rest: string)
    requires Guarded(rest) && ms != []
    ensures ReadMembers(ObjectTo(ms, rest)) == Good(ms, rest)
    decreases ms, 1
  {
    var more := ms[1..];
    assert ms == [ms[0]] + more;
    MemberReads(ms[0], MembersTo(more, rest));
    if more == [] {
      assert ms == [ms[0]];
      Front('}', rest);
    } else {
      MembersRead(more, rest);
      assert MembersTo(more, rest) == [','] + ObjectTo(more, rest);
      Front(',', ObjectTo(more, rest));
    }
  }

  lemma {:induction false} ObjectReads(ms: seq<Member>, rest: string)
    requires Guarded(rest)
    ensures ReadObject(ObjectTo(ms, rest)) == Good(Obj(ms), rest)
    decreases ms, 2
  {
    if ms == [] {
      Front('}', rest);
    } else {
      MembersRead(ms, rest);
      Front('\"', EscapeTo(ms[0].key, ":" + PrintTo(ms[0].value, MembersTo(ms[1..], rest))));
    }
  }

  /** Reading a printed value gives the value back, and nothing is left over. */
  lemma ReadsBack(j: Json)
    ensures ReadValue(Print(j)) == Good(j, "")
  {
    PrintToIs(j, "");
    assert Print(j) + "" == Print(j);
    ValueReads(j, "");
  }
}
