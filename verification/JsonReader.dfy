/** A reader of JSON texts as section 2 of RFC 8259 describes them, for values without
    fractions and without white space between tokens, and the fact that it reads canonical
    bytes back as the value they were made from. */
module JsonReader {
  import opened Prelude
  import opened Encoding
  import opened CanonicalJson

  // --------------------------------------------------------------- the reader

  function HexValue(c: char): Option<int> {
    if '0' <= c <= '9' then Some(c as int - '0' as int)
    else if 'a' <= c <= 'f' then Some(c as int - 'a' as int + 10)
    else if 'A' <= c <= 'F' then Some(c as int - 'A' as int + 10)
    else None
  }

  /** Four hexadecimal digits that name a character. */
  function ReadHex(s: string): Option<char> {
    if |s| < 4 || HexValue(s[0]).None? || HexValue(s[1]).None? || HexValue(s[2]).None? || HexValue(s[3]).None? then None
    else
      var n := HexValue(s[0]).value * 0x1000 + HexValue(s[1]).value * 0x100 + HexValue(s[2]).value * 0x10
               + HexValue(s[3]).value;
      if n < 0xD800 || 0xE000 <= n < 0x1_0000 then Some(n as char) else None
  }

  /** What follows a backslash: the character it stands for and the rest. */
  function ReadEscape(s: string): (r: Option<(char, string)>)
    ensures r.Some? ==> |r.value.1| < |s|
  {
    if s == [] then None
    else match s[0]
      case '"' => Some(('"', s[1..]))
      case '\\' => Some(('\\', s[1..]))
      case '/' => Some(('/', s[1..]))
      case 'b' => Some((8 as char, s[1..]))
      case 'f' => Some((12 as char, s[1..]))
      case 'n' => Some(('\n', s[1..]))
      case 'r' => Some(('\r', s[1..]))
      case 't' => Some(('\t', s[1..]))
      case 'u' =>
        (match ReadHex(s[1..])
         case Some(c) => Some((c, s[5..]))
         case None => None)
      case _ => None
  }

  /** The characters up to the closing quote. */
  function ReadText(s: string): (r: Option<(string, string)>)
    ensures r.Some? ==> |r.value.1| < |s|
    decreases |s|
  {
    if s == [] || s[0] < ' ' then None
    else if s[0] == '"' then Some(("", s[1..]))
    else
      var head := if s[0] == '\\' then ReadEscape(s[1..]) else Some((s[0], s[1..]));
      match head
      case None => None
      case Some((c, more)) =>
        match ReadText(more)
        case None => None
        case Some((t, rest)) => Some(([c] + t, rest))
  }

  /** How many digits a text begins with. */
  function Run(s: string): (n: nat)
    ensures n <= |s| && AllDigits(s[..n]) && (n < |s| ==> !IsDigit(s[n]))
  {
    if s == [] || !IsDigit(s[0]) then 0
    else
      var n := Run(s[1..]);
      assert s[..n + 1] == [s[0]] + s[1..][..n];
      n + 1
  }

  function ReadNumber(s: string): (r: Option<(int, string)>)
    ensures r.Some? ==> |r.value.1| < |s|
  {
    if s == [] then None
    else
      var body := if s[0] == '-' then s[1..] else s;
      var n := Run(body);
      if n == 0 then None
      else Some((if s[0] == '-' then -(DigitsValue(body[..n]) as int) else DigitsValue(body[..n]), body[n..]))
  }

  function ReadValue(s: string): (r: Option<(Json, string)>)
    ensures r.Some? ==> |r.value.1| < |s|
    decreases |s|, 0
  {
    if s == [] then None
    else if s[0] == '"' then
      (match ReadText(s[1..]) case None => None case Some((t, rest)) => Some((JText(t), rest)))
    else if s[0] == '[' then
      if |s| > 1 && s[1] == ']' then Some((JArray([]), s[2..]))
      else (match ReadItems(s[1..]) case None => None case Some((items, rest)) => Some((JArray(items), rest)))
    else if s[0] == '{' then
      if |s| > 1 && s[1] == '}' then Some((JObject([]), s[2..]))
      else (match ReadMembers(s[1..]) case None => None case Some((members, rest)) => Some((JObject(members), rest)))
    else if "null" <= s then Some((JNull, s[4..]))
    else if "true" <= s then Some((JBool(true), s[4..]))
    else if "false" <= s then Some((JBool(false), s[5..]))
    else match ReadNumber(s) case None => None case Some((n, rest)) => Some((JInt(n), rest))
  }

  /** One item or more, up to the closing bracket. */
  function ReadItems(s: string): (r: Option<(seq<Json>, string)>)
    ensures r.Some? ==> |r.value.1| < |s|
    decreases |s|, 1
  {
    match ReadValue(s)
    case None => None
    case Some((first, rest)) =>
      if rest == [] then None
      else if rest[0] == ']' then Some(([first], rest[1..]))
      else if rest[0] != ',' then None
      else match ReadItems(rest[1..]) case None => None case Some((more, end)) => Some(([first] + more, end))
  }

  /** One member or more, up to the closing brace. */
  function ReadMembers(s: string): (r: Option<(seq<Member>, string)>)
    ensures r.Some? ==> |r.value.1| < |s|
    decreases |s|, 1
  {
    if s == [] || s[0] != '"' then None
    else match ReadText(s[1..])
      case None => None
      case Some((key, after)) =>
        if after == [] || after[0] != ':' then None
        else match ReadValue(after[1..])
          case None => None
          case Some((value, rest)) =>
            if rest == [] then None
            else if rest[0] == '}' then Some(([Member(key, value)], rest[1..]))
            else if rest[0] != ',' then None
            else match ReadMembers(rest[1..])
              case None => None
              case Some((more, end)) => Some(([Member(key, value)] + more, end))
  }

  // ------------------------------------------------- it reads what is written

  lemma HexRoundTrip(d: int)
    requires 0 <= d < 16
    ensures HexValue(Hex(d)) == Some(d)
  {
  }

  lemma EscapeReads(c: char, rest: string)
    requires Escape(c)[0] == '\\'
    ensures ReadEscape((Escape(c) + rest)[1..]) == Some((c, rest))
  {
    var s := (Escape(c) + rest)[1..];
    if |Escape(c)| == 2 {
      assert s[1..] == rest;
    } else {
      var n := c as int;
      assert s[0] == 'u' && s[1] == '0' && s[2] == '0' && s[3] == Hex(n / 16) && s[4] == Hex(n % 16);
      HexRoundTrip(n / 16);
      HexRoundTrip(n % 16);
      assert s[1..][0] == '0' && s[1..][1] == '0' && s[1..][2] == Hex(n / 16) && s[1..][3] == Hex(n % 16);
      assert s[5..] == rest;
    }
  }

  lemma EscapeKinds(c: char)
    ensures Escape(c)[0] == '\\' || (Escape(c) == [c] && c >= ' ' && c != '"')
  {
  }

  lemma {:induction false} TextReads(t: string, rest: string)
    ensures ReadText(Escaped(t, rest)) == Some((t, rest))
    decreases |t|
  {
    if t == [] {
      assert Escaped(t, rest)[1..] == rest;
    } else {
      var s, more := Escaped(t, rest), Escaped(t[1..], rest);
      TextReads(t[1..], rest);
      EscapeKinds(t[0]);
      if Escape(t[0])[0] == '\\' {
        EscapeReads(t[0], more);
        assert s[0] == '\\' && s[1..] == (Escape(t[0]) + more)[1..];
      } else {
        assert s[0] == t[0] && s[1..] == more;
      }
      assert t == [t[0]] + t[1..];
    }
  }

  lemma {:induction false} RunStops(d: string, rest: string)
    requires AllDigits(d) && Stops(rest)
    ensures Run(d + rest) == |d|
  {
    if d == [] {
      assert d + rest == rest;
    } else {
      assert (d + rest)[1..] == d[1..] + rest;
      RunStops(d[1..], rest);
    }
  }

  lemma {:induction false} DigitsRead(n: nat, rest: string)
    requires Stops(rest)
    ensures var s := Digits(n) + rest;
            && Run(s) == |Digits(n)| && DigitsValue(s[..Run(s)]) == n && s[Run(s)..] == rest
            && s[0] == Digits(n)[0] && IsDigit(s[0])
  {
    hide Digits, Run, DigitsValue;
    var d := Digits(n);
    RunStops(d, rest);
    assert (d + rest)[..|d|] == d && (d + rest)[|d|..] == rest;
    DigitsValueOfDigits(n);
  }

  lemma NumberReads(n: int, rest: string)
    requires Stops(rest)
    ensures ReadNumber(Decimal(n) + rest) == Some((n, rest))
  {
    hide Digits, Run, DigitsValue;
    DigitsRead(if n < 0 then -n else n, rest);
    if n < 0 { assert (Decimal(n) + rest)[1..] == Digits(-n) + rest; }
  }

  lemma {:induction false} WordReads(j: Json, rest: string)
    requires j.JNull? || j.JBool?
    ensures ReadValue(Render(j, rest)) == Some((j, rest))
  {
    var s := Render(j, rest);
    match j
    case JNull => assert s[..4] == "null" && s[4..] == rest;
    case JBool(true) => assert s[..4] == "true" && s[4..] == rest && s[0] != "null"[0];
    case JBool(false) => assert s[..5] == "false" && s[5..] == rest && s[0] != "null"[0] && s[0] != "true"[0];
  }

  lemma {:induction false} IntReads(n: int, rest: string)
    requires Stops(rest)
    ensures ReadValue(Decimal(n) + rest) == Some((JInt(n), rest))
  {
    var s := Decimal(n) + rest;
    NumberReads(n, rest);
    assert s[0] == '-' || IsDigit(s[0]) by { assert n >= 0 ==> IsDigit(Digits(n)[0]); }
    assert s[0] != "null"[0] && s[0] != "true"[0] && s[0] != "false"[0];
  }

  /** Every rendered value, followed by a text that cannot extend a number, reads back as
      that value and leaves that text. */
  lemma {:induction false} ValueReads(j: Json, rest: string)
    requires Stops(rest)
    ensures ReadValue(Render(j, rest)) == Some((j, rest))
    decreases j, 1
  {
    match j
    case JNull => WordReads(j, rest);
    case JBool(_) => WordReads(j, rest);
    case JInt(n) => IntReads(n, rest);
    case JText(t) =>
      TextReads(t, rest);
      assert Render(j, rest)[1..] == Escaped(t, rest);
    case JArray(items) => ArrayReads(items, rest);
    case JObject(members) => ObjectReads(members, rest);
  }

  lemma {:induction false} ArrayReads(items: seq<Json>, rest: string)
    ensures ReadValue("[" + RenderItems(items, rest)) == Some((JArray(items), rest))
    decreases items, 1
  {
    hide Render, ReadItems;
    var s := "[" + RenderItems(items, rest);
    assert s[1..] == RenderItems(items, rest);
    if items == [] {
      assert s[2..] == rest && s[1] == ']';
    } else {
      RenderLead(items[0], AfterItem(items, rest));
      assert RenderItems(items, rest) == Render(items[0], AfterItem(items, rest));
      assert s[1] == Lead(items[0]);
      ItemsRead(items, rest);
    }
  }

  lemma {:induction false} ItemsRead(items: seq<Json>, rest: string)
    requires items != []
    ensures ReadItems(RenderItems(items, rest)) == Some((items, rest))
    decreases items, 0
  {
    hide Render, ReadValue;
    var after := AfterItem(items, rest);
    assert RenderItems(items, rest) == Render(items[0], after);
    ValueReads(items[0], after);
    if |items| == 1 {
      assert after[1..] == rest && items == [items[0]];
    } else {
      assert after[1..] == RenderItems(items[1..], rest);
      ItemsRead(items[1..], rest);
      assert items == [items[0]] + items[1..];
    }
  }

  lemma {:induction false} ObjectReads(members: seq<Member>, rest: string)
    ensures ReadValue("{" + RenderMembers(members, rest)) == Some((JObject(members), rest))
    decreases members, 1
  {
    hide Render, ReadMembers;
    var s := "{" + RenderMembers(members, rest);
    assert s[1..] == RenderMembers(members, rest);
    if members == [] {
      assert s[2..] == rest && s[1] == '}';
    } else {
      assert s[1] == '"';
      MembersRead(members, rest);
    }
  }

  lemma {:induction false} MembersRead(members: seq<Member>, rest: string)
    requires members != []
    ensures ReadMembers(RenderMembers(members, rest)) == Some((members, rest))
    decreases members, 0
  {
    hide Render, ReadValue, ReadText, Escaped;
    var s, after := RenderMembers(members, rest), AfterMember(members, rest);
    var value := Render(members[0].value, after);
    assert s == Quoted(members[0].key, ":" + value);
    TextReads(members[0].key, ":" + value);
    assert s[1..] == Escaped(members[0].key, ":" + value) && (":" + value)[1..] == value;
    ValueReads(members[0].value, after);
    if |members| == 1 {
      assert after[1..] == rest && members == [members[0]];
    } else {
      assert after[1..] == RenderMembers(members[1..], rest);
      MembersRead(members[1..], rest);
      assert members == [members[0]] + members[1..];
    }
  }

  /** Canonical bytes are UTF-8 of a JSON text, and that text reads back, to its end, as the
      materialised value: what is hashed and signed says exactly what was meant. */
  lemma {:induction false} CanonicalBytesReadBack(v: Value)
    requires CanonicalBytes(v).Ok?
    ensures Representable(v)
    ensures var text := DecodeUtf8(CanonicalBytes(v).value);
            text.Some? && ReadValue(text.value) == Some((Canon(v), ""))
  {
    hide Canon, Render, ReadValue, Utf8, DecodeUtf8;
    Utf8RoundTrip(Render(Canon(v), ""));
    ValueReads(Canon(v), "");
  }

  ghost predicate IsEntryOf(v: Value, m: Member)
    requires v.Mapping? && Representable(v)
  {
    exists i :: 0 <= i < |v.entries| && v.entries[i].key == TextKey(m.key) && m.value == Canon(v.entries[i].value)
  }

  /** The members of an object are the entries of its dictionary, once each, in strictly
      ascending order of their names. */
  lemma {:induction false} MembersAscend(v: Value)
    requires v.Mapping? && Representable(v) && WellFormed(v)
    ensures var ms := Canon(v).members;
            && |ms| == |v.entries| && (forall i, j :: 0 <= i < j < |ms| ==> StrLt(ms[i].key, ms[j].key))
            && (forall m :: m in ms <==> IsEntryOf(v, m))
  {
    var raw, ms := CanonMembers(v), Canon(v).members;
    forall x: Member, y: Member, z: Member | MemberLt(x, y) && MemberLt(y, z) ensures MemberLt(x, z) {
      StrLtTransitive(x.key, y.key, z.key);
    }
    forall i, j | 0 <= i < j < |raw| ensures MemberLt(raw[i], raw[j]) || MemberLt(raw[j], raw[i]) {
      StrLtTotal(raw[i].key, raw[j].key);
    }
    SortAscends(MemberLt, raw);
    forall m ensures m in raw <==> IsEntryOf(v, m) {
      if i :| 0 <= i < |v.entries| && v.entries[i].key == TextKey(m.key) && m.value == Canon(v.entries[i].value) {
        assert raw[i] == m;
      }
      if m in raw {
        var i :| 0 <= i < |raw| && raw[i] == m;
        assert v.entries[i].key == TextKey(m.key);
      }
    }
  }
}
