/** Canonical JSON: the text that every hash in the system is taken over.

    A value is what a JSON column can hold. Objects keep their members in
    insertion order, so that "the order does not matter" is something to prove.
    A finite number is identified by the text the runtime prints for it. */
module Json {
  import opened Wrappers

  predicate NumberChar(c: char) {
    '0' <= c <= '9' || c == '+' || c == '-' || c == '.' || c == 'e'
  }

  predicate IsNumberText(t: string) {
    |t| > 0 && forall i | 0 <= i < |t| :: NumberChar(t[i])
  }

  type NumberText = t: string | IsNumberText(t) witness "0"

  datatype Member = Member(key: string, value: Value)

  datatype Value =
    | Null
    | Bool(b: bool)
    | Number(text: NumberText)
    | String(s: string)
    | Array(items: seq<Value>)
    | Object(members: seq<Member>)

  predicate UniqueKeys(ms: seq<Member>) {
    forall i, j | 0 <= i < j < |ms| :: ms[i].key != ms[j].key
  }

  /** No object anywhere inside has the same key twice. */
  ghost predicate Valid(v: Value) {
    match v
    case Array(items) => forall x | x in items :: Valid(x)
    case Object(ms) => UniqueKeys(ms) && forall m | m in ms :: Valid(m.value)
    case _ => true
  }

  ghost function Keys(ms: seq<Member>): set<string> {
    set m | m in ms :: m.key
  }

  function Lookup(ms: seq<Member>, k: string): (v: Value)
    requires k in Keys(ms)
    ensures Member(k, v) in ms
  {
    if ms[0].key == k then ms[0].value else Lookup(ms[1..], k)
  }

  lemma {:induction false} LookupAt(ms: seq<Member>, i: nat)
    requires UniqueKeys(ms) && i < |ms|
    ensures Lookup(ms, ms[i].key) == ms[i].value
  {
    var v := Lookup(ms, ms[i].key);
    var j :| 0 <= j < |ms| && ms[j] == Member(ms[i].key, v);
    assert i == j;
  }

  // ---------------------------------------------------------------------
  // What a value means once key order is forgotten
  // ---------------------------------------------------------------------

  datatype Meaning =
    | MNull
    | MBool(b: bool)
    | MNumber(text: string)
    | MString(s: string)
    | MArray(items: seq<Meaning>)
    | MObject(fields: map<string, Meaning>)

  ghost function Denote(v: Value): Meaning {
    match v
    case Null => MNull
    case Bool(b) => MBool(b)
    case Number(t) => MNumber(t)
    case String(s) => MString(s)
    case Array(items) => MArray(seq(|items|, i requires 0 <= i < |items| => Denote(items[i])))
    case Object(ms) => MObject(map k | k in Keys(ms) :: Denote(Lookup(ms, k)))
  }

  // ---------------------------------------------------------------------
  // Key order: UTF-16 code units, as section 3.2.3 of RFC 8785 asks
  // ---------------------------------------------------------------------

  /** Comparing weights character by character is comparing the UTF-16 encodings:
      a surrogate pair starts below U+E000, although its code point is larger. */
  function Weight(c: char): int {
    var u := c as int;
    if u < 0xD800 then u
    else if u < 0x1_0000 then u + 0x10_0000
    else u - 0x1_0000 + 0xD800
  }

  predicate Less(a: string, b: string) {
    if |b| == 0 then false
    else if |a| == 0 then true
    else if a[0] == b[0] then Less(a[1..], b[1..])
    else Weight(a[0]) < Weight(b[0])
  }

  lemma {:induction false} LessTotal(a: string, b: string)
    ensures a == b || Less(a, b) || Less(b, a)
    ensures !(Less(a, b) && Less(b, a))
  {
    if |a| > 0 && |b| > 0 && a[0] == b[0] {
      LessTotal(a[1..], b[1..]);
      assert a == [a[0]] + a[1..] && b == [b[0]] + b[1..];
    }
  }

  lemma {:induction false} LessTrans(a: string, b: string, c: string)
    requires Less(a, b) && Less(b, c)
    ensures Less(a, c)
  {
    if |a| > 0 && a[0] == b[0] == c[0] {
      LessTrans(a[1..], b[1..], c[1..]);
    }
  }

  ghost predicate Sorted(ks: seq<string>) {
    forall i, j | 0 <= i < j < |ks| :: Less(ks[i], ks[j])
  }

  function Insert(k: string, ks: seq<string>): (r: seq<string>) {
    if |ks| == 0 || Less(k, ks[0]) then [k] + ks else [ks[0]] + Insert(k, ks[1..])
  }

  lemma {:induction false} InsertSorted(k: string, ks: seq<string>)
    requires Sorted(ks) && k !in ks
    ensures Sorted(Insert(k, ks))
    ensures forall x :: x in Insert(k, ks) <==> x == k || x in ks
  {
    if |ks| == 0 {
    } else if Less(k, ks[0]) {
      forall j | 0 <= j < |ks| ensures Less(k, ks[j]) {
        if j > 0 { LessTrans(k, ks[0], ks[j]); }
      }
    } else {
      InsertSorted(k, ks[1..]);
      LessTotal(k, ks[0]);
      assert ks[0] in ks;
      var rest := Insert(k, ks[1..]);
      forall j | 0 <= j < |rest| ensures Less(ks[0], rest[j]) {
        assert rest[j] in rest;
      }
    }
  }

  function SortedKeys(ms: seq<Member>): seq<string> {
    if |ms| == 0 then [] else Insert(ms[0].key, SortedKeys(ms[1..]))
  }

  lemma {:induction false} SortedKeysContents(ms: seq<Member>)
    ensures forall k :: k in SortedKeys(ms) <==> k in Keys(ms)
  {
    if |ms| > 0 {
      SortedKeysContents(ms[1..]);
      InsertContents(ms[0].key, SortedKeys(ms[1..]));
      assert ms == [ms[0]] + ms[1..];
    }
  }

  lemma {:induction false} InsertContents(k: string, ks: seq<string>)
    ensures forall x :: x in Insert(k, ks) <==> x == k || x in ks
  {
    if |ks| > 0 && !Less(k, ks[0]) {
      InsertContents(k, ks[1..]);
      assert ks == [ks[0]] + ks[1..];
    }
  }

  lemma {:induction false} SortedKeysSorted(ms: seq<Member>)
    requires UniqueKeys(ms)
    ensures Sorted(SortedKeys(ms))
  {
    if |ms| > 0 {
      SortedKeysSorted(ms[1..]);
      SortedKeysContents(ms[1..]);
      InsertSorted(ms[0].key, SortedKeys(ms[1..]));
    }
  }

  lemma TailContents(a: seq<string>)
    requires Sorted(a) && |a| > 0
    ensures forall k :: k in a[1..] <==> k in a && k != a[0]
  {
    LessTotal(a[0], a[0]);
    assert a == [a[0]] + a[1..];
  }

  lemma NonEmpty(a: seq<string>)
    ensures |a| > 0 ==> exists k :: k in a
  {
    if |a| > 0 { assert a[0] in a; }
  }

  lemma {:induction false} SortedIsUnique(a: seq<string>, b: seq<string>)
    requires Sorted(a) && Sorted(b)
    requires forall k :: k in a <==> k in b
    ensures a == b
  {
    if |a| == 0 {
      NonEmpty(b);
    } else {
      assert a[0] in a;
      assert a[0] in b && b[0] in a;
      LessTotal(a[0], b[0]);
      TailContents(a);
      TailContents(b);
      SortedIsUnique(a[1..], b[1..]);
    }
  }

  // ---------------------------------------------------------------------
  // The printer
  // ---------------------------------------------------------------------

  function HexDigit(n: int): char
    requires 0 <= n < 16
  {
    "0123456789abcdef"[n]
  }

  /** Escaping of one character, as in section 7 of RFC 8259. */
  function EscapeChar(c: char): string {
    if c == '"' then "\\\""
    else if c == '\\' then "\\\\"
    else if c as int == 8 then "\\b"
    else if c as int == 9 then "\\t"
    else if c as int == 10 then "\\n"
    else if c as int == 12 then "\\f"
    else if c as int == 13 then "\\r"
    else if c as int < 0x20 then "\\u00" + [HexDigit(c as int / 16), HexDigit(c as int % 16)]
    else [c]
  }

  function Escape(s: string): string {
    if |s| == 0 then "" else EscapeChar(s[0]) + Escape(s[1..])
  }

  function Quote(s: string): string {
    "\"" + Escape(s) + "\""
  }

  /** canonicalJsonStringify. */
  function Stringify(v: Value): string
    decreases v
  {
    match v
    case Null => "null"
    case Bool(b) => if b then "true" else "false"
    case Number(t) => t
    case String(s) => Quote(s)
    case Array(items) => "[" + StringifyItems(items) + "]"
    case Object(ms) =>
      SortedKeysContents(ms);
      "{" + StringifyKeys(v, SortedKeys(ms)) + "}"
  }

  /** The items' texts joined with commas. */
  function StringifyItems(items: seq<Value>): string
    decreases items
  {
    if |items| == 0 then ""
    else if |items| == 1 then Stringify(items[0])
    else Stringify(items[0]) + "," + StringifyItems(items[1..])
  }

  function StringifyKeys(v: Value, ks: seq<string>): string
    requires v.Object? && forall k | k in ks :: k in Keys(v.members)
    decreases v, |ks|
  {
    if |ks| == 0 then ""
    else
      var m := Member(ks[0], Lookup(v.members, ks[0]));
      var pair := Quote(m.key) + ":" + Stringify(m.value);
      if |ks| == 1 then pair else pair + "," + StringifyKeys(v, ks[1..])
  }

  // ---------------------------------------------------------------------
  // The text determines the meaning
  // ---------------------------------------------------------------------

  predicate Stop(c: char) {
    c == ',' || c == ']' || c == '}'
  }

  /** What may follow a value inside a document, or nothing. */
  ghost predicate Stops(rest: string) {
    |rest| > 0 ==> Stop(rest[0])
  }

  /** No two escapes are equal, and none is a proper prefix of another. */
  lemma EscapeCharPrefixFree(c: char, d: char, n: nat)
    requires n <= |EscapeChar(c)| && n <= |EscapeChar(d)|
    requires n == |EscapeChar(c)| || n == |EscapeChar(d)|
    requires EscapeChar(c)[..n] == EscapeChar(d)[..n]
    ensures c == d
  {
    var p, q := EscapeChar(c), EscapeChar(d);
    assert forall i | 0 <= i < n :: p[i] == p[..n][i] == q[..n][i] == q[i];
    assert p[0] == q[0];
    if n > 1 {
      assert p[1] == q[1];
    }
    if n == 6 {
      assert p[4] == q[4] && p[5] == q[5];
    }
  }

  lemma EscapeCharUnique(c: char, d: char, x: string, y: string)
    requires EscapeChar(c) + x == EscapeChar(d) + y
    ensures c == d && x == y
  {
    var p, q := EscapeChar(c), EscapeChar(d);
    var n := if |p| <= |q| then |p| else |q|;
    assert p[..n] == (p + x)[..n] && q[..n] == (q + y)[..n];
    EscapeCharPrefixFree(c, d, n);
    SameLengthPrefix(p, q, x, y);
  }

  function Closed(s: string, x: string): string {
    Escape(s) + "\"" + x
  }

  lemma ClosedEnd(x: string)
    ensures Closed("", x) == "\"" + x
  {
    assert Escape("") == "";
  }

  lemma ClosedUnfold(s: string, x: string)
    requires |s| > 0
    ensures Closed(s, x) == EscapeChar(s[0]) + Closed(s[1..], x)
  {
    assert Escape(s) == EscapeChar(s[0]) + Escape(s[1..]);
  }

  lemma ClosedStart(s: string, x: string)
    ensures Closed(s, x)[0] == '"' <==> |s| == 0
  {
    if |s| > 0 {
      ClosedUnfold(s, x);
    }
  }

  lemma {:induction false} EscapeUnique(s: string, t: string, x: string, y: string)
    requires Closed(s, x) == Closed(t, y)
    ensures s == t && x == y
  {
    ClosedStart(s, x);
    ClosedStart(t, y);
    if |s| == 0 {
      ClosedEnd(x);
      ClosedEnd(y);
      SameLengthPrefix("\"", "\"", x, y);
    } else {
      ClosedUnfold(s, x);
      ClosedUnfold(t, y);
      EscapeCharUnique(s[0], t[0], Closed(s[1..], x), Closed(t[1..], y));
      EscapeUnique(s[1..], t[1..], x, y);
      assert s == [s[0]] + s[1..] && t == [t[0]] + t[1..];
    }
  }

  lemma QuoteUnique(s: string, t: string, x: string, y: string)
    requires Quote(s) + x == Quote(t) + y
    ensures s == t && x == y
  {
    QuoteClosed(s, x);
    QuoteClosed(t, y);
    SameLengthPrefix("\"", "\"", Closed(s, x), Closed(t, y));
    EscapeUnique(s, t, x, y);
  }

  lemma QuoteClosed(s: string, x: string)
    ensures Quote(s) + x == "\"" + Closed(s, x)
  {
  }

  lemma NumberUnique(t: NumberText, u: NumberText, x: string, y: string)
    requires t + x == u + y && Stops(x) && Stops(y)
    ensures t == u && x == y
  {
    var a, b := t + x, u + y;
    assert forall i | 0 <= i < |t| :: a[i] == t[i] && !Stop(a[i]);
    assert forall i | 0 <= i < |u| :: b[i] == u[i] && !Stop(b[i]);
    assert |x| > 0 ==> a[|t|] == x[0];
    assert |y| > 0 ==> b[|u|] == y[0];
    assert |t| == |u|;
    assert t == a[..|t|] && u == b[..|u|] && x == a[|t|..] && y == b[|u|..];
  }

  /** The first character of a text tells the kind of value. */
  function Kind(c: char): int {
    if c == 'n' then 0
    else if c == 't' || c == 'f' then 1
    else if c == '"' then 3
    else if c == '[' then 4
    else if c == '{' then 5
    else if NumberChar(c) then 2
    else 6
  }

  function KindOf(v: Value): int {
    match v
    case Null => 0
    case Bool(_) => 1
    case Number(_) => 2
    case String(_) => 3
    case Array(_) => 4
    case Object(_) => 5
  }

  lemma StringifyKind(v: Value)
    ensures |Stringify(v)| > 0 && Kind(Stringify(v)[0]) == KindOf(v)
  {
    match v
    case Number(t) =>
      assert NumberChar(t[0]);
    case _ =>
  }

  /** Texts are self-delimiting: equal documents begin with values of equal meaning. */
  lemma {:induction false} StringifyUnique(a: Value, b: Value, x: string, y: string)
    requires Stringify(a) + x == Stringify(b) + y && Stops(x) && Stops(y)
    ensures Denote(a) == Denote(b) && x == y
    decreases a
  {
    var s, t := Stringify(a), Stringify(b);
    StringifyKind(a);
    StringifyKind(b);
    assert (s + x)[0] == s[0] && (t + y)[0] == t[0];
    match a
    case Null =>
      SameLengthPrefix(s, t, x, y);
    case Bool(_) =>
      BoolUnique(a, b, x, y);
    case Number(_) =>
      NumberUnique(a.text, b.text, x, y);
    case String(_) =>
      QuoteUnique(a.s, b.s, x, y);
    case Array(_) =>
      AfterBracket("[", StringifyItems(a.items), "]", x, "[", StringifyItems(b.items), "]", y);
      ItemsUnique(a.items, b.items, x, y);
    case Object(_) =>
      ObjectUnique(a, b, x, y);
  }

  lemma SameLengthPrefix(s: string, t: string, x: string, y: string)
    requires s + x == t + y && |s| == |t|
    ensures s == t && x == y
  {
    assert s == (s + x)[..|s|] && t == (t + y)[..|t|];
    assert x == (s + x)[|s|..] && y == (t + y)[|t|..];
  }

  lemma BoolUnique(a: Value, b: Value, x: string, y: string)
    requires a.Bool? && b.Bool? && Stringify(a) + x == Stringify(b) + y
    ensures a == b && x == y
  {
    assert (Stringify(a) + x)[0] == Stringify(a)[0] && (Stringify(b) + y)[0] == Stringify(b)[0];
    SameLengthPrefix(Stringify(a), Stringify(b), x, y);
  }

  /** Drop one opening bracket from two equal texts. */
  lemma AfterBracket(o: string, s: string, c: string, x: string, p: string, t: string, d: string, y: string)
    requires |o| == |p| == 1 && (o + s + c) + x == (p + t + d) + y
    ensures s + (c + x) == t + (d + y)
  {
    assert s + (c + x) == ((o + s + c) + x)[1..];
    assert t + (d + y) == ((p + t + d) + y)[1..];
  }

  lemma Regroup(a: string, b: string, c: string, d: string)
    ensures (a + b + c) + d == a + (b + (c + d))
  {
  }

  function ItemsRest(items: seq<Value>, x: string): string
    requires |items| > 0
  {
    if |items| == 1 then "]" + x else "," + (StringifyItems(items[1..]) + ("]" + x))
  }

  lemma ItemsCons(items: seq<Value>, x: string)
    requires |items| > 0
    ensures StringifyItems(items) + ("]" + x) == Stringify(items[0]) + ItemsRest(items, x)
  {
    if |items| > 1 {
      Regroup(Stringify(items[0]), ",", StringifyItems(items[1..]), "]" + x);
    }
  }

  lemma ItemsStart(items: seq<Value>, x: string)
    ensures (StringifyItems(items) + ("]" + x))[0] == ']' <==> |items| == 0
  {
    if |items| > 0 {
      StringifyKind(items[0]);
      ItemsCons(items, x);
    }
  }

  lemma {:induction false} ItemsUnique(a: seq<Value>, b: seq<Value>, x: string, y: string)
    requires StringifyItems(a) + ("]" + x) == StringifyItems(b) + ("]" + y)
    ensures |a| == |b| && x == y
    ensures forall i | 0 <= i < |a| :: Denote(a[i]) == Denote(b[i])
    decreases a
  {
    ItemsStart(a, x);
    ItemsStart(b, y);
    if |a| == 0 {
      assert "" + ("]" + x) == "]" + x && "" + ("]" + y) == "]" + y;
      SameLengthPrefix("]", "]", x, y);
    } else {
      ItemsCons(a, x);
      ItemsCons(b, y);
      StringifyUnique(a[0], b[0], ItemsRest(a, x), ItemsRest(b, y));
      var more := ItemsRestUnique(a, b, x, y);
      if more {
        ItemsUnique(a[1..], b[1..], x, y);
        ConsDenotes(a, b);
      }
    }
  }

  /** After equal first items, either both lists end here or both go on. */
  lemma ItemsRestUnique(a: seq<Value>, b: seq<Value>, x: string, y: string) returns (more: bool)
    requires |a| > 0 && |b| > 0 && ItemsRest(a, x) == ItemsRest(b, y)
    ensures more ==> |a| > 1 && |b| > 1
    ensures more ==> StringifyItems(a[1..]) + ("]" + x) == StringifyItems(b[1..]) + ("]" + y)
    ensures !more ==> |a| == |b| == 1 && x == y
  {
    more := |a| > 1;
    var r, q := ItemsRest(a, x), ItemsRest(b, y);
    assert r[0] == q[0];
    if more {
      SameLengthPrefix(",", ",", r[1..], q[1..]);
    } else {
      SameLengthPrefix("]", "]", x, y);
    }
  }

  lemma ConsDenotes(a: seq<Value>, b: seq<Value>)
    requires |a| == |b| > 0 && Denote(a[0]) == Denote(b[0])
    requires forall i | 0 <= i < |a| - 1 :: Denote(a[1..][i]) == Denote(b[1..][i])
    ensures forall i | 0 <= i < |a| :: Denote(a[i]) == Denote(b[i])
  {
    forall i | 0 <= i < |a| ensures Denote(a[i]) == Denote(b[i]) {
      assert i > 0 ==> a[i] == a[1..][i - 1] && b[i] == b[1..][i - 1];
    }
  }

  function KeysRest(v: Value, ks: seq<string>, x: string): string
    requires |ks| > 0 && v.Object? && forall k | k in ks :: k in Keys(v.members)
  {
    if |ks| == 1 then "}" + x else "," + (StringifyKeys(v, ks[1..]) + ("}" + x))
  }

  lemma KeysCons(v: Value, ks: seq<string>, x: string)
    requires v.Object? && forall k | k in ks :: k in Keys(v.members)
    ensures var text := StringifyKeys(v, ks) + ("}" + x);
      if |ks| == 0 then text == "}" + x
      else text == Quote(ks[0]) + (":" + (Stringify(Lookup(v.members, ks[0])) + KeysRest(v, ks, x))) && text[0] == '"'
  {
    if |ks| > 0 {
      var child := Stringify(Lookup(v.members, ks[0]));
      if |ks| > 1 {
        Regroup(Quote(ks[0]) + ":" + child, ",", StringifyKeys(v, ks[1..]), "}" + x);
      }
      Regroup(Quote(ks[0]), ":", child, KeysRest(v, ks, x));
    }
  }

  lemma {:induction false} KeysUnique(a: Value, ka: seq<string>, b: Value, kb: seq<string>, x: string, y: string)
    requires a.Object? && forall k | k in ka :: k in Keys(a.members)
    requires b.Object? && forall k | k in kb :: k in Keys(b.members)
    requires StringifyKeys(a, ka) + ("}" + x) == StringifyKeys(b, kb) + ("}" + y)
    ensures ka == kb && x == y
    ensures forall k | k in ka :: Denote(Lookup(a.members, k)) == Denote(Lookup(b.members, k))
    decreases a, 0, |ka|
  {
    KeysCons(a, ka, x);
    KeysCons(b, kb, y);
    if |ka| == 0 {
      SameLengthPrefix("}", "}", x, y);
    } else {
      var k := ka[0];
      var va, vb := Lookup(a.members, k), Lookup(b.members, kb[0]);
      var r, q := KeysRest(a, ka, x), KeysRest(b, kb, y);
      QuoteUnique(k, kb[0], ":" + (Stringify(va) + r), ":" + (Stringify(vb) + q));
      SameLengthPrefix(":", ":", Stringify(va) + r, Stringify(vb) + q);
      StringifyUnique(va, vb, r, q);
      assert r[0] == q[0];
      if |ka| == 1 {
        SameLengthPrefix("}", "}", x, y);
      } else {
        SameLengthPrefix(",", ",", r[1..], q[1..]);
        KeysUnique(a, ka[1..], b, kb[1..], x, y);
      }
      assert ka == [k] + ka[1..] && kb == [k] + kb[1..];
    }
  }

  lemma {:induction false} ObjectUnique(a: Value, b: Value, x: string, y: string)
    requires a.Object? && b.Object? && Stringify(a) + x == Stringify(b) + y
    ensures Denote(a) == Denote(b) && x == y
    decreases a, 1
  {
    var ka, kb := SortedKeys(a.members), SortedKeys(b.members);
    SortedKeysContents(a.members);
    SortedKeysContents(b.members);
    AfterBracket("{", StringifyKeys(a, ka), "}", x, "{", StringifyKeys(b, kb), "}", y);
    KeysUnique(a, ka, b, kb, x, y);
    DenoteObject(a.members, b.members, ka);
  }

  lemma DenoteObject(ms: seq<Member>, ns: seq<Member>, ks: seq<string>)
    requires forall k :: k in ks <==> k in Keys(ms)
    requires forall k :: k in ks <==> k in Keys(ns)
    requires forall k | k in ks :: Denote(Lookup(ms, k)) == Denote(Lookup(ns, k))
    ensures Denote(Object(ms)) == Denote(Object(ns))
  {
    assert Keys(ms) == Keys(ns);
  }

  // ---------------------------------------------------------------------
  // The meaning determines the text
  // ---------------------------------------------------------------------

  lemma {:induction false} StringifyRespects(a: Value, b: Value)
    requires Valid(a) && Valid(b) && Denote(a) == Denote(b)
    ensures Stringify(a) == Stringify(b)
    decreases a
  {
    match a
    case Array(items) =>
      assert |items| == |Denote(a).items| == |Denote(b).items| == |b.items|;
      forall i | 0 <= i < |items| ensures Denote(items[i]) == Denote(b.items[i]) {
        assert Denote(items[i]) == Denote(a).items[i] && Denote(b.items[i]) == Denote(b).items[i];
      }
      ItemsRespect(items, b.items);
    case Object(ms) =>
      var ks := SortedKeys(ms);
      SameKeys(a, b);
      SortedKeysContents(ms);
      KeysRespect(a, b, ks);
    case _ =>
  }

  lemma SameKeys(a: Value, b: Value)
    requires Valid(a) && Valid(b) && a.Object? && b.Object? && Denote(a) == Denote(b)
    ensures Keys(a.members) == Keys(b.members)
    ensures SortedKeys(a.members) == SortedKeys(b.members)
  {
    assert Keys(a.members) == Denote(a).fields.Keys == Denote(b).fields.Keys == Keys(b.members);
    SortedKeysSorted(a.members);
    SortedKeysSorted(b.members);
    SortedKeysContents(a.members);
    SortedKeysContents(b.members);
    SortedIsUnique(SortedKeys(a.members), SortedKeys(b.members));
  }

  lemma {:induction false} ItemsRespect(a: seq<Value>, b: seq<Value>)
    requires |a| == |b|
    requires forall i | 0 <= i < |a| :: Valid(a[i]) && Valid(b[i]) && Denote(a[i]) == Denote(b[i])
    ensures StringifyItems(a) == StringifyItems(b)
    decreases a
  {
    if |a| > 0 {
      StringifyRespects(a[0], b[0]);
      ItemsRespect(a[1..], b[1..]);
    }
  }

  lemma {:induction false} KeysRespect(a: Value, b: Value, ks: seq<string>)
    requires a.Object? && b.Object? && Valid(a) && Valid(b) && Denote(a) == Denote(b)
    requires forall k | k in ks :: k in Keys(a.members) && k in Keys(b.members)
    ensures StringifyKeys(a, ks) == StringifyKeys(b, ks)
    decreases a, |ks|
  {
    if |ks| > 0 {
      var va, vb := Lookup(a.members, ks[0]), Lookup(b.members, ks[0]);
      assert Member(ks[0], va) in a.members && Member(ks[0], vb) in b.members;
      assert Denote(va) == Denote(a).fields[ks[0]] == Denote(b).fields[ks[0]] == Denote(vb);
      StringifyRespects(va, vb);
      KeysRespect(a, b, ks[1..]);
    }
  }

  /** The canonical text identifies a value exactly up to the order of its keys. */
  lemma CanonicalText(a: Value, b: Value)
    requires Valid(a) && Valid(b)
    ensures Stringify(a) == Stringify(b) <==> Denote(a) == Denote(b)
  {
    if Stringify(a) == Stringify(b) {
      assert Stringify(a) + "" == Stringify(b) + "";
      StringifyUnique(a, b, "", "");
    }
    if Denote(a) == Denote(b) {
      StringifyRespects(a, b);
    }
  }

  // ---------------------------------------------------------------------
  // Records: objects with a fixed list of field names
  // ---------------------------------------------------------------------

  predicate Distinct(names: seq<string>) {
    forall i, j | 0 <= i < j < |names| :: names[i] != names[j]
  }

  function Fields(names: seq<string>, values: seq<Value>): seq<Member>
    requires |names| == |values|
  {
    seq(|names|, i requires 0 <= i < |names| => Member(names[i], values[i]))
  }

  function Record(names: seq<string>, values: seq<Value>): Value
    requires |names| == |values|
  {
    Object(Fields(names, values))
  }

  lemma DenoteField(names: seq<string>, values: seq<Value>, i: nat)
    requires |names| == |values| && Distinct(names) && i < |names|
    ensures names[i] in Denote(Record(names, values)).fields
    ensures Denote(Record(names, values)).fields[names[i]] == Denote(values[i])
  {
    var ms := Fields(names, values);
    assert ms[i] in ms;
    LookupAt(ms, i);
  }

  ghost predicate Agree(vs: seq<Value>, ws: seq<Value>, i: nat)
    requires i < |vs| == |ws|
  {
    Denote(vs[i]) == Denote(ws[i])
  }

  ghost predicate AllAgree(vs: seq<Value>, ws: seq<Value>) {
    |vs| == |ws| && forall i | 0 <= i < |vs| :: Agree(vs, ws, i)
  }

  lemma TextsAgree(a: string, b: string)
    requires Denote(String(a)) == Denote(String(b))
    ensures a == b
  {
    assert Denote(String(a)) == MString(a) && Denote(String(b)) == MString(b);
  }

  lemma ArraysAgree(xs: seq<Value>, ys: seq<Value>)
    requires Denote(Array(xs)) == Denote(Array(ys))
    ensures |xs| == |ys| && forall i | 0 <= i < |xs| :: Denote(xs[i]) == Denote(ys[i])
  {
    var a, b := Denote(Array(xs)).items, Denote(Array(ys)).items;
    assert forall i | 0 <= i < |xs| :: a[i] == Denote(xs[i]);
    assert forall i | 0 <= i < |ys| :: b[i] == Denote(ys[i]);
  }

  lemma IntegersAgree(m: int, n: int)
    requires Denote(Integer(m)) == Denote(Integer(n))
    ensures m == n
  {
    DecimalInjective(m, n);
  }

  lemma BoolsAgree(a: bool, b: bool)
    requires Denote(Bool(a)) == Denote(Bool(b))
    ensures a == b
  {
    assert Denote(Bool(a)) == MBool(a) && Denote(Bool(b)) == MBool(b);
  }

  lemma OptionsAgree(a: Option<string>, b: Option<string>)
    requires Denote(OrNull(a)) == Denote(OrNull(b))
    ensures a == b
  {
  }

  /** Equal meanings of two records mean field-wise equal meanings. */
  lemma RecordMeaningBinds(names: seq<string>, vs: seq<Value>, ws: seq<Value>)
    requires |names| == |vs| == |ws| && Distinct(names)
    requires Denote(Record(names, vs)) == Denote(Record(names, ws))
    ensures AllAgree(vs, ws)
  {
    forall i | 0 <= i < |vs| ensures Agree(vs, ws, i) {
      DenoteField(names, vs, i);
      DenoteField(names, ws, i);
    }
  }

  /** Equal texts of two records mean field-wise equal meanings. */
  lemma RecordBinds(names: seq<string>, vs: seq<Value>, ws: seq<Value>)
    requires |names| == |vs| == |ws| && Distinct(names)
    requires Stringify(Record(names, vs)) == Stringify(Record(names, ws))
    ensures AllAgree(vs, ws)
  {
    assert Stringify(Record(names, vs)) + "" == Stringify(Record(names, ws)) + "";
    StringifyUnique(Record(names, vs), Record(names, ws), "", "");
    forall i | 0 <= i < |vs| ensures Agree(vs, ws, i) {
      DenoteField(names, vs, i);
      DenoteField(names, ws, i);
    }
  }

  lemma RecordMeaning(names: seq<string>, vs: seq<Value>, ws: seq<Value>)
    requires |names| == |vs| == |ws| && Distinct(names)
    requires forall i | 0 <= i < |vs| :: Denote(vs[i]) == Denote(ws[i])
    ensures Denote(Record(names, vs)) == Denote(Record(names, ws))
  {
    var a, b := Denote(Record(names, vs)).fields, Denote(Record(names, ws)).fields;
    KeysOfRecord(names, vs);
    KeysOfRecord(names, ws);
    forall k | k in a.Keys ensures k in b.Keys && a[k] == b[k] {
      var i :| 0 <= i < |names| && names[i] == k;
      DenoteField(names, vs, i);
      DenoteField(names, ws, i);
    }
  }

  lemma KeysOfRecord(names: seq<string>, vs: seq<Value>)
    requires |names| == |vs|
    ensures forall k :: k in Denote(Record(names, vs)).fields <==> k in names
  {
    var ms := Fields(names, vs);
    assert forall i | 0 <= i < |names| :: ms[i] in ms && ms[i].key == names[i];
  }

  /** Field-wise equal meanings give equal texts. */
  lemma RecordRespects(names: seq<string>, vs: seq<Value>, ws: seq<Value>)
    requires |names| == |vs| == |ws| && Distinct(names)
    requires forall i | 0 <= i < |vs| :: Valid(vs[i]) && Valid(ws[i]) && Denote(vs[i]) == Denote(ws[i])
    ensures Stringify(Record(names, vs)) == Stringify(Record(names, ws))
  {
    RecordMeaning(names, vs, ws);
    assert Valid(Record(names, vs)) && Valid(Record(names, ws));
    StringifyRespects(Record(names, vs), Record(names, ws));
  }

  /** Member lists that hold the same members in any insertion order mean the same. */
  lemma PermutationKeepsMeaning(ms: seq<Member>, ns: seq<Member>)
    requires UniqueKeys(ms) && UniqueKeys(ns) && forall m :: m in ms <==> m in ns
    ensures Denote(Object(ms)) == Denote(Object(ns))
  {
    assert Keys(ms) == Keys(ns);
    forall k | k in Keys(ms) ensures Lookup(ms, k) == Lookup(ns, k) {
      var m := Member(k, Lookup(ms, k));
      assert m in ns;
      var i :| 0 <= i < |ns| && ns[i] == m;
      LookupAt(ns, i);
    }
  }

  // ---------------------------------------------------------------------
  // Integers as number texts
  // ---------------------------------------------------------------------

  function Digits(n: nat): (t: string)
    ensures |t| > 0 && forall i | 0 <= i < |t| :: '0' <= t[i] <= '9'
  {
    if n < 10 then [Digit(n)] else Digits(n / 10) + [Digit(n % 10)]
  }

  function Digit(n: nat): (c: char)
    requires n < 10
    ensures '0' <= c <= '9'
  {
    ('0' as int + n) as char
  }

  lemma DigitsParts(n: nat)
    ensures |Digits(n)| == 1 <==> n < 10
    ensures Digits(n)[|Digits(n)| - 1] == Digit(n % 10)
    ensures n >= 10 ==> Digits(n)[..|Digits(n)| - 1] == Digits(n / 10)
  {
  }

  lemma {:induction false} DigitsInjective(m: nat, n: nat)
    requires Digits(m) == Digits(n)
    ensures m == n
  {
    DigitsParts(m);
    DigitsParts(n);
    assert m % 10 == n % 10;
    if m >= 10 {
      DigitsInjective(m / 10, n / 10);
    }
  }

  function Decimal(n: int): (t: string)
    ensures IsNumberText(t)
  {
    if n < 0 then "-" + Digits(-n) else Digits(n)
  }

  lemma DecimalInjective(m: int, n: int)
    requires Decimal(m) == Decimal(n)
    ensures m == n
  {
    var s, t := Decimal(m), Decimal(n);
    assert s[0] == t[0];
    if m < 0 {
      assert Digits(-m) == s[1..] && Digits(-n) == t[1..];
      DigitsInjective(-m, -n);
    } else {
      DigitsInjective(m, n);
    }
  }

  function Integer(n: int): Value {
    Number(Decimal(n))
  }

  /** An absent text is the null value. */
  function OrNull(s: Option<string>): Value {
    if s.Some? then String(s.value) else Null
  }
}
