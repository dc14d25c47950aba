/** Canonical JSON: the bytes that are hashed and signed.

    A Value is a Python object as the encoder meets it: dictionaries keep their
    insertion order and containers keep their concrete kind. A Json is what the
    text says: object members in key order, no container kinds. */
module CanonicalJson {
  import opened Prelude
  import opened Encoding

  datatype SeqKind = ListSeq | TupleSeq | OtherSeq

  datatype Key = TextKey(text: string) | OtherKey(tag: int)

  datatype Entry = Entry(key: Key, value: Value)

  datatype Value =
    | Null
    | Bool(flag: bool)
    | Int(number: int)
    | Text(text: string)
    | Sequence(kind: SeqKind, items: seq<Value>)
    | Mapping(frozen: bool, entries: seq<Entry>)
    | Float
    | Unsupported(tag: int)

  datatype Member = Member(key: string, value: Json)

  datatype Json =
    | JNull
    | JBool(flag: bool)
    | JInt(number: int)
    | JText(text: string)
    | JArray(items: seq<Json>)
    | JObject(members: seq<Member>)

  datatype Error = CanonicalizationError

  /** No float, no unsupported object and only text keys, at any depth. */
  predicate Representable(v: Value) {
    match v
    case Float => false
    case Unsupported(_) => false
    case Sequence(_, items) => forall i :: 0 <= i < |items| ==> Representable(items[i])
    case Mapping(_, entries) =>
      forall i :: 0 <= i < |entries| ==> entries[i].key.TextKey? && Representable(entries[i].value)
    case _ => true
  }

  /** A Python dictionary holds each key once. */
  ghost predicate WellFormed(v: Value) {
    match v
    case Sequence(_, items) => forall i :: 0 <= i < |items| ==> WellFormed(items[i])
    case Mapping(_, entries) =>
      && (forall i, j :: 0 <= i < j < |entries| ==> entries[i].key != entries[j].key)
      && (forall i :: 0 <= i < |entries| ==> WellFormed(entries[i].value))
    case _ => true
  }

  predicate MemberLt(a: Member, b: Member) { StrLt(a.key, b.key) }

  /** Materialising a value and sorting the members of every object. */
  function Canon(v: Value): Json
    requires Representable(v)
  {
    match v
    case Null => JNull
    case Bool(b) => JBool(b)
    case Int(n) => JInt(n)
    case Text(s) => JText(s)
    case Sequence(_, items) =>
      JArray(seq(|items|, i requires 0 <= i < |items| => Canon(items[i])))
    case Mapping(_, entries) => JObject(Sort(MemberLt, CanonMembers(v)))
  }

  function CanonMembers(v: Value): (r: seq<Member>)
    requires v.Mapping? && Representable(v)
    decreases v, 0
    ensures |r| == |v.entries|
  {
    seq(|v.entries|, i requires 0 <= i < |v.entries| => Member(v.entries[i].key.text, Canon(v.entries[i].value)))
  }

  // -------------------------------------------------------------- the text

  function Hex(d: int): char
    requires 0 <= d < 16
  {
    if d < 10 then '0' + d as char else 'a' + (d - 10) as char
  }

  /** Escapes of section 7 of RFC 8259 with non-ASCII characters left as they are. */
  function Escape(c: char): (r: string)
    ensures |r| >= 1
  {
    if c == '"' then "\\\""
    else if c == '\\' then "\\\\"
    else if c == '\n' then "\\n"
    else if c == '\r' then "\\r"
    else if c == '\t' then "\\t"
    else if c == 12 as char then "\\f"
    else if c == 8 as char then "\\b"
    else if c < 32 as char then "\\u00" + [Hex(c as int / 16), Hex(c as int % 16)]
    else [c]
  }

  /** The escaped text of s, its closing quote, and then rest. */
  function Escaped(s: string, rest: string): string {
    if s == [] then "\"" + rest else Escape(s[0]) + Escaped(s[1..], rest)
  }

  function Quoted(s: string, rest: string): string { "\"" + Escaped(s, rest) }

  /** The text of a value followed by rest: compact separators, members as given. */
  function Render(j: Json, rest: string): string
    decreases j, 1
  {
    match j
    case JNull => "null" + rest
    case JBool(b) => if b then "true" + rest else "false" + rest
    case JInt(n) => Decimal(n) + rest
    case JText(s) => Quoted(s, rest)
    case JArray(items) => "[" + RenderItems(items, rest)
    case JObject(members) => "{" + RenderMembers(members, rest)
  }

  /** The items, the closing bracket and then rest. */
  function RenderItems(items: seq<Json>, rest: string): string
    decreases items, 0
  {
    if items == [] then "]" + rest
    else Render(items[0], if |items| == 1 then "]" + rest else "," + RenderItems(items[1..], rest))
  }

  function RenderMembers(members: seq<Member>, rest: string): string
    decreases members, 0
  {
    if members == [] then "}" + rest
    else Quoted(members[0].key, ":" + Render(members[0].value,
                if |members| == 1 then "}" + rest else "," + RenderMembers(members[1..], rest)))
  }

  function CanonicalBytes(v: Value): Result<seq<byte>, Error> {
    if Representable(v) then Ok(Utf8(Render(Canon(v), ""))) else Err(CanonicalizationError)
  }

  // --------------------------------------------------- the text is unambiguous

  lemma CutFront<T>(a: seq<T>, b: seq<T>, r: seq<T>, t: seq<T>)
    requires a + r == b + t && |a| == |b|
    ensures a == b && r == t
  {
    assert a == (a + r)[..|a|] && b == (b + t)[..|b|];
    assert r == (a + r)[|a|..] && t == (b + t)[|b|..];
  }

  lemma EscapeUniquelyRead(c: char, d: char, r: string, t: string)
    requires Escape(c) + r == Escape(d) + t
    ensures c == d && r == t
  {
    var x, y := Escape(c) + r, Escape(d) + t;
    assert x[0] == y[0];
    if |Escape(c)| > 1 || |Escape(d)| > 1 {
      assert x[1] == y[1];
      if |Escape(c)| == 6 || |Escape(d)| == 6 {
        assert x[4] == y[4] && x[5] == y[5];
        assert c as int == c as int / 16 * 16 + c as int % 16;
        assert d as int == d as int / 16 * 16 + d as int % 16;
      }
    }
    assert c == d;
    CutFront(Escape(c), Escape(d), r, t);
  }

  lemma {:induction false} EscapedHead(s: string, rest: string)
    ensures |Escaped(s, rest)| >= 1
    ensures Escaped(s, rest)[0] == (if s == [] then '"' else Escape(s[0])[0])
    ensures s != [] ==> Escape(s[0])[0] != '"'
  {
  }

  lemma {:induction false} EscapedUniquelyRead(a: string, b: string, r: string, t: string)
    requires Escaped(a, r) == Escaped(b, t)
    ensures a == b && r == t
  {
    EscapedHead(a, r);
    EscapedHead(b, t);
    if a == [] || b == [] {
      CutFront("\"", "\"", r, t);
    } else {
      EscapeUniquelyRead(a[0], b[0], Escaped(a[1..], r), Escaped(b[1..], t));
      EscapedUniquelyRead(a[1..], b[1..], r, t);
      assert a == [a[0]] + a[1..] && b == [b[0]] + b[1..];
    }
  }

  lemma QuotedUniquelyRead(a: string, b: string, r: string, t: string)
    requires Quoted(a, r) == Quoted(b, t)
    ensures a == b && r == t
  {
    CutFront("\"", "\"", Escaped(a, r), Escaped(b, t));
    EscapedUniquelyRead(a, b, r, t);
  }

  /** The first character of a text tells which kind of value it is. */
  function Lead(j: Json): char {
    match j
    case JNull => 'n'
    case JBool(b) => if b then 't' else 'f'
    case JInt(n) => Decimal(n)[0]
    case JText(_) => '"'
    case JArray(_) => '['
    case JObject(_) => '{'
  }

  lemma {:induction false} RenderLead(j: Json, rest: string)
    ensures |Render(j, rest)| >= 1 && Render(j, rest)[0] == Lead(j)
    ensures Lead(j) !in {']', '}', ',', ':'}
  {
    if j.JInt? {
      assert j.number >= 0 ==> IsDigit(Digits(j.number)[0]);
    }
  }

  lemma LeadDecidesKind(a: Json, b: Json)
    requires Lead(a) == Lead(b)
    ensures a.JNull? == b.JNull? && a.JInt? == b.JInt? && a.JText? == b.JText?
    ensures a.JArray? == b.JArray? && a.JObject? == b.JObject?
    ensures a.JBool? || b.JBool? ==> a == b
  {
    if a.JInt? { assert a.number >= 0 ==> IsDigit(Digits(a.number)[0]); }
    if b.JInt? { assert b.number >= 0 ==> IsDigit(Digits(b.number)[0]); }
  }

  /** A rendered value followed by any text that cannot extend a number is read
      back in one way only. */
  lemma {:induction false} UniquelyRead(a: Json, b: Json, r: string, t: string)
    requires Render(a, r) == Render(b, t) && Stops(r) && Stops(t)
    ensures a == b && r == t
    decreases a, 1
  {
    RenderLead(a, r);
    RenderLead(b, t);
    LeadDecidesKind(a, b);
    match a
    case JNull => CutFront("null", "null", r, t);
    case JBool(f) =>
      if f { CutFront("true", "true", r, t); } else { CutFront("false", "false", r, t); }
    case JInt(n) => DecimalUniquelyRead(n, b.number, r, t);
    case JText(s) => QuotedUniquelyRead(s, b.text, r, t);
    case JArray(items) =>
      CutFront("[", "[", RenderItems(items, r), RenderItems(b.items, t));
      ItemsUniquelyRead(items, b.items, r, t);
    case JObject(members) =>
      CutFront("{", "{", RenderMembers(members, r), RenderMembers(b.members, t));
      MembersUniquelyRead(members, b.members, r, t);
  }

  /** What follows the first item: the closing bracket, or a comma and the others. */
  function AfterItem(items: seq<Json>, rest: string): string {
    if |items| <= 1 then "]" + rest else "," + RenderItems(items[1..], rest)
  }

  lemma {:induction false} ItemsUniquelyRead(a: seq<Json>, b: seq<Json>, r: string, t: string)
    requires RenderItems(a, r) == RenderItems(b, t)
    ensures a == b && r == t
    decreases a, 0
  {
    if a != [] { RenderLead(a[0], AfterItem(a, r)); }
    if b != [] { RenderLead(b[0], AfterItem(b, t)); }
    if a == [] || b == [] {
      CutFront("]", "]", r, t);
    } else {
      UniquelyRead(a[0], b[0], AfterItem(a, r), AfterItem(b, t));
      assert AfterItem(a, r)[0] == AfterItem(b, t)[0];
      assert a == [a[0]] + a[1..] && b == [b[0]] + b[1..];
      if |a| == 1 {
        CutFront("]", "]", r, t);
      } else {
        CutFront(",", ",", RenderItems(a[1..], r), RenderItems(b[1..], t));
        ItemsUniquelyRead(a[1..], b[1..], r, t);
      }
    }
  }

  function AfterMember(members: seq<Member>, rest: string): string {
    if |members| <= 1 then "}" + rest else "," + RenderMembers(members[1..], rest)
  }

  lemma {:induction false} MembersUniquelyRead(a: seq<Member>, b: seq<Member>, r: string, t: string)
    requires RenderMembers(a, r) == RenderMembers(b, t)
    ensures a == b && r == t
    decreases a, 0
  {
    assert RenderMembers(a, r)[0] == (if a == [] then '}' else '"');
    assert RenderMembers(b, t)[0] == (if b == [] then '}' else '"');
    if a == [] || b == [] {
      CutFront("}", "}", r, t);
    } else {
      var va, vb := Render(a[0].value, AfterMember(a, r)), Render(b[0].value, AfterMember(b, t));
      QuotedUniquelyRead(a[0].key, b[0].key, ":" + va, ":" + vb);
      CutFront(":", ":", va, vb);
      UniquelyRead(a[0].value, b[0].value, AfterMember(a, r), AfterMember(b, t));
      assert AfterMember(a, r)[0] == AfterMember(b, t)[0];
      assert a == [a[0]] + a[1..] && b == [b[0]] + b[1..];
      if |a| == 1 {
        CutFront("}", "}", r, t);
      } else {
        CutFront(",", ",", RenderMembers(a[1..], r), RenderMembers(b[1..], t));
        MembersUniquelyRead(a[1..], b[1..], r, t);
      }
    }
  }

  // ------------------------------------- equal bytes mean equal JSON values

  /** The same JSON value: dictionaries compare as sets of members, whatever
      order they were filled in, and container kinds do not matter. */
  ghost predicate SameJson(v: Value, w: Value)
    decreases v, 1
  {
    match (v, w)
    case (Sequence(_, a), Sequence(_, b)) =>
      |a| == |b| && forall i :: 0 <= i < |a| ==> SameJson(a[i], b[i])
    case (Mapping(_, a), Mapping(_, b)) =>
      && (forall i :: 0 <= i < |a| ==> HasEntry(v, i, w))
      && (forall j :: 0 <= j < |b| ==> HasSource(v, j, w))
    case (Sequence(_, _), _) => false
    case (Mapping(_, _), _) => false
    case _ => v == w
  }

  /** Entry i of v has a counterpart in w. */
  ghost predicate HasEntry(v: Value, i: nat, w: Value)
    requires v.Mapping? && w.Mapping? && i < |v.entries|
    decreases v, 0
  {
    exists j :: 0 <= j < |w.entries| && v.entries[i].key == w.entries[j].key
                && SameJson(v.entries[i].value, w.entries[j].value)
  }

  /** Entry j of w has a counterpart in v. */
  ghost predicate HasSource(v: Value, j: nat, w: Value)
    requires v.Mapping? && w.Mapping? && j < |w.entries|
    decreases v, 0
  {
    exists i :: 0 <= i < |v.entries| && v.entries[i].key == w.entries[j].key
                && SameJson(v.entries[i].value, w.entries[j].value)
  }

  lemma MemberOrder()
    ensures Transitive(MemberLt) && Asymmetric(MemberLt)
  {
    forall x: Member, y: Member, z: Member | MemberLt(x, y) && MemberLt(y, z) ensures MemberLt(x, z) {
      StrLtTransitive(x.key, y.key, z.key);
    }
    forall x: Member, y: Member | MemberLt(x, y) ensures !MemberLt(y, x) {
      StrLtAsymmetric(x.key, y.key);
    }
  }

  lemma {:induction false} MembersComparable(v: Value)
    requires v.Mapping? && Representable(v) && WellFormed(v)
    ensures Comparable(MemberLt, CanonMembers(v))
  {
    var m := CanonMembers(v);
    forall i, j | 0 <= i < j < |m| ensures MemberLt(m[i], m[j]) || MemberLt(m[j], m[i]) {
      assert v.entries[i].key != v.entries[j].key;
      StrLtTotal(m[i].key, m[j].key);
    }
  }

  /** Canonical forms agree exactly on the same JSON value. */
  lemma {:induction false} CanonIffSame(v: Value, w: Value)
    requires Representable(v) && Representable(w) && WellFormed(v) && WellFormed(w)
    ensures Canon(v) == Canon(w) <==> SameJson(v, w)
    decreases v, 1
  {
    if v.Sequence? && w.Sequence? {
      var a, b := v.items, w.items;
      if |a| == |b| {
        forall i | 0 <= i < |a| ensures Canon(a[i]) == Canon(b[i]) <==> SameJson(a[i], b[i]) {
          CanonIffSame(a[i], b[i]);
        }
        assert forall i :: 0 <= i < |a| ==> Canon(v).items[i] == Canon(a[i]);
        assert forall i :: 0 <= i < |a| ==> Canon(w).items[i] == Canon(b[i]);
      } else {
        assert |Canon(v).items| != |Canon(w).items|;
      }
    } else if v.Mapping? && w.Mapping? {
      ObjectIffSame(v, w);
    }
  }

  /** The members of v and w correspond one to one in both directions. */
  ghost predicate SameMembers(ma: seq<Member>, mb: seq<Member>) {
    && (forall i :: 0 <= i < |ma| ==> ma[i] in mb)
    && (forall j :: 0 <= j < |mb| ==> mb[j] in ma)
  }

  lemma {:induction false} SortedIffSameMembers(ma: seq<Member>, mb: seq<Member>)
    requires Comparable(MemberLt, ma) && Comparable(MemberLt, mb)
    ensures Sort(MemberLt, ma) == Sort(MemberLt, mb) <==> SameMembers(ma, mb)
  {
    MemberOrder();
    if SameMembers(ma, mb) {
      SortIgnoresOrder(MemberLt, ma, mb);
    }
    if Sort(MemberLt, ma) == Sort(MemberLt, mb) {
      assert forall x :: x in ma <==> x in Sort(MemberLt, ma);
      assert forall x :: x in mb <==> x in Sort(MemberLt, mb);
    }
  }

  lemma {:induction false} EntriesAgree(v: Value, i: nat, w: Value, j: nat)
    requires v.Mapping? && w.Mapping? && i < |v.entries| && j < |w.entries|
    requires Representable(v) && Representable(w) && WellFormed(v) && WellFormed(w)
    ensures CanonMembers(v)[i] == CanonMembers(w)[j] <==>
            v.entries[i].key == w.entries[j].key && SameJson(v.entries[i].value, w.entries[j].value)
    decreases v, 0, 0
  {
    CanonIffSame(v.entries[i].value, w.entries[j].value);
  }

  lemma {:induction false} MembersAgree(v: Value, w: Value)
    requires v.Mapping? && w.Mapping?
    requires Representable(v) && Representable(w) && WellFormed(v) && WellFormed(w)
    ensures forall i :: 0 <= i < |v.entries| ==> (CanonMembers(v)[i] in CanonMembers(w) <==> HasEntry(v, i, w))
    ensures forall j :: 0 <= j < |w.entries| ==> (CanonMembers(w)[j] in CanonMembers(v) <==> HasSource(v, j, w))
    decreases v, 0, 1
  {
    forall i, j | 0 <= i < |v.entries| && 0 <= j < |w.entries|
      ensures CanonMembers(v)[i] == CanonMembers(w)[j] <==>
              v.entries[i].key == w.entries[j].key && SameJson(v.entries[i].value, w.entries[j].value)
    {
      EntriesAgree(v, i, w, j);
    }
  }

  lemma {:induction false} SameJsonIffSameMembers(v: Value, w: Value)
    requires v.Mapping? && w.Mapping?
    requires Representable(v) && Representable(w) && WellFormed(v) && WellFormed(w)
    ensures SameMembers(CanonMembers(v), CanonMembers(w)) <==> SameJson(v, w)
    decreases v, 0, 2
  {
    var a, b := v.entries, w.entries;
    var ma, mb := CanonMembers(v), CanonMembers(w);
    MembersAgree(v, w);
    if SameMembers(ma, mb) {
      assert forall i :: 0 <= i < |a| ==> ma[i] in mb && HasEntry(v, i, w);
      assert forall j :: 0 <= j < |b| ==> mb[j] in ma && HasSource(v, j, w);
    } else if SameJson(v, w) {
      assert forall i :: 0 <= i < |a| ==> HasEntry(v, i, w) && ma[i] in mb;
      assert forall j :: 0 <= j < |b| ==> HasSource(v, j, w) && mb[j] in ma;
    }
  }

  lemma {:induction false} ObjectIffSame(v: Value, w: Value)
    requires v.Mapping? && w.Mapping?
    requires Representable(v) && Representable(w) && WellFormed(v) && WellFormed(w)
    ensures Canon(v) == Canon(w) <==> SameJson(v, w)
    decreases v, 0, 3
  {
    MembersComparable(v);
    MembersComparable(w);
    SortedIffSameMembers(CanonMembers(v), CanonMembers(w));
    SameJsonIffSameMembers(v, w);
  }

  /** The canonical bytes determine the JSON value and nothing else: two payloads
      share their bytes exactly when they are the same JSON value, in whatever
      order and kind of container they were built. */
  lemma {:induction false} BytesIffSameJson(v: Value, w: Value)
    requires WellFormed(v) && WellFormed(w)
    requires CanonicalBytes(v).Ok? && CanonicalBytes(w).Ok?
    ensures CanonicalBytes(v) == CanonicalBytes(w) <==> SameJson(v, w)
  {
    CanonIffSame(v, w);
    if CanonicalBytes(v) == CanonicalBytes(w) {
      Utf8RoundTrip(Render(Canon(v), ""));
      Utf8RoundTrip(Render(Canon(w), ""));
      UniquelyRead(Canon(v), Canon(w), "", "");
    }
  }

  // -------------------------------------------------- freezing and thawing

  /** Read-only form held by an envelope: mappings become proxies, lists and
      tuples become tuples; any other sequence is kept as it is. */
  function Freeze(v: Value): Value {
    match v
    case Mapping(_, entries) =>
      Mapping(true, seq(|entries|, i requires 0 <= i < |entries| => Entry(entries[i].key, Freeze(entries[i].value))))
    case Sequence(kind, items) =>
      if kind.OtherSeq? then v
      else Sequence(TupleSeq, seq(|items|, i requires 0 <= i < |items| => Freeze(items[i])))
    case _ => v
  }

  /** Plain form handed out: mappings become dictionaries, tuples become lists. */
  function Thaw(v: Value): Value {
    match v
    case Mapping(_, entries) =>
      Mapping(false, seq(|entries|, i requires 0 <= i < |entries| => Entry(entries[i].key, Thaw(entries[i].value))))
    case Sequence(kind, items) =>
      if kind.TupleSeq? then Sequence(ListSeq, seq(|items|, i requires 0 <= i < |items| => Thaw(items[i]))) else v
    case _ => v
  }

  /** Freezing or thawing a payload changes neither its acceptance nor its bytes. */
  lemma {:induction false} FreezeKeepsCanon(v: Value)
    ensures Representable(Freeze(v)) == Representable(v)
    ensures Representable(v) ==> Canon(Freeze(v)) == Canon(v)
  {
    match v
    case Mapping(_, entries) =>
      var f := Freeze(v);
      forall i | 0 <= i < |entries|
        ensures Representable(f.entries[i].value) == Representable(entries[i].value)
        ensures Representable(entries[i].value) ==> Canon(f.entries[i].value) == Canon(entries[i].value)
      {
        FreezeKeepsCanon(entries[i].value);
      }
      SameRepresentable(v, f);
      if Representable(v) {
        assert CanonMembers(f) == CanonMembers(v);
      }
    case Sequence(kind, items) =>
      if !kind.OtherSeq? {
        var f := Freeze(v);
        forall i | 0 <= i < |items|
          ensures Representable(f.items[i]) == Representable(items[i])
          ensures Representable(items[i]) ==> Canon(f.items[i]) == Canon(items[i])
        {
          FreezeKeepsCanon(items[i]);
        }
        assert Representable(f) == Representable(v) by {
          if Representable(f) { assert forall i :: 0 <= i < |items| ==> Representable(f.items[i]); }
          if Representable(v) { assert forall i :: 0 <= i < |items| ==> Representable(items[i]); }
        }
        if Representable(v) {
          assert Canon(f).items == Canon(v).items;
        }
      }
    case _ =>
  }

  lemma {:induction false} SameRepresentable(v: Value, w: Value)
    requires v.Mapping? && w.Mapping? && |v.entries| == |w.entries|
    requires forall i :: 0 <= i < |v.entries| ==>
               v.entries[i].key == w.entries[i].key
               && Representable(v.entries[i].value) == Representable(w.entries[i].value)
    ensures Representable(v) == Representable(w)
  {
    if Representable(v) {
      assert forall i :: 0 <= i < |v.entries| ==> v.entries[i].key.TextKey? && Representable(v.entries[i].value);
    }
    if Representable(w) {
      assert forall i :: 0 <= i < |w.entries| ==> w.entries[i].key.TextKey? && Representable(w.entries[i].value);
    }
  }

  /** A dictionary's bytes depend on its keys and on the canonical forms of its values only. */
  lemma {:induction false} EntriesDecideBytes(v: Value, w: Value)
    requires v.Mapping? && w.Mapping? && |v.entries| == |w.entries|
    requires forall i :: 0 <= i < |v.entries| ==>
               && v.entries[i].key == w.entries[i].key
               && Representable(v.entries[i].value) == Representable(w.entries[i].value)
               && (Representable(v.entries[i].value) ==> Canon(v.entries[i].value) == Canon(w.entries[i].value))
    ensures CanonicalBytes(v) == CanonicalBytes(w)
  {
    hide Render, Utf8, Sort;
    SameRepresentable(v, w);
    if Representable(v) {
      assert forall i :: 0 <= i < |v.entries| ==> v.entries[i].key.TextKey? && Representable(v.entries[i].value);
      assert forall i :: 0 <= i < |v.entries| ==> CanonMembers(v)[i] == CanonMembers(w)[i];
      assert CanonMembers(v) == CanonMembers(w);
    }
  }

  lemma {:induction false} ThawKeepsCanon(v: Value)
    ensures Representable(Thaw(v)) == Representable(v)
    ensures Representable(v) ==> Canon(Thaw(v)) == Canon(v)
  {
    match v
    case Mapping(_, entries) =>
      var f := Thaw(v);
      forall i | 0 <= i < |entries|
        ensures Representable(f.entries[i].value) == Representable(entries[i].value)
        ensures Representable(entries[i].value) ==> Canon(f.entries[i].value) == Canon(entries[i].value)
      {
        ThawKeepsCanon(entries[i].value);
      }
      SameRepresentable(v, f);
      if Representable(v) {
        assert CanonMembers(f) == CanonMembers(v);
      }
    case Sequence(kind, items) =>
      if kind.TupleSeq? {
        var f := Thaw(v);
        forall i | 0 <= i < |items|
          ensures Representable(f.items[i]) == Representable(items[i])
          ensures Representable(items[i]) ==> Canon(f.items[i]) == Canon(items[i])
        {
          ThawKeepsCanon(items[i]);
        }
        assert Representable(f) == Representable(v) by {
          if Representable(f) { assert forall i :: 0 <= i < |items| ==> Representable(f.items[i]); }
          if Representable(v) { assert forall i :: 0 <= i < |items| ==> Representable(items[i]); }
        }
        if Representable(v) {
          assert Canon(f).items == Canon(v).items;
        }
      }
    case _ =>
  }

  lemma {:induction false} FreezeAndThawKeepBytes(v: Value)
    ensures CanonicalBytes(Freeze(v)) == CanonicalBytes(v) == CanonicalBytes(Thaw(v))
  {
    FreezeKeepsCanon(v);
    ThawKeepsCanon(v);
  }

  /** Handing out a frozen payload and freezing what comes back is the identity. */
  lemma {:induction false} FreezeThawFreeze(v: Value)
    ensures Freeze(Thaw(Freeze(v))) == Freeze(v)
  {
    match v
    case Mapping(_, entries) =>
      forall i | 0 <= i < |entries|
        ensures Freeze(Thaw(Freeze(entries[i].value))) == Freeze(entries[i].value)
      {
        FreezeThawFreeze(entries[i].value);
      }
      assert Freeze(Thaw(Freeze(v))).entries == Freeze(v).entries;
    case Sequence(kind, items) =>
      forall i | 0 <= i < |items| ensures Freeze(Thaw(Freeze(items[i]))) == Freeze(items[i]) {
        FreezeThawFreeze(items[i]);
      }
      if !kind.OtherSeq? {
        assert Freeze(Thaw(Freeze(v))).items == Freeze(v).items;
      }
    case _ =>
  }
}
