/** The canonical form behind RequestHash (internal/notification/hash.go): a payload is decoded into
    maps, re-encoded with sorted keys and escaped strings, and appended to the destination behind
    a NUL. SHA-256 is taken to be collision-free, so the digest is modelled by its preimage. */
module CanonicalJson {
  import opened Wrappers

  // ---------- payloads and decoded values ----------

  // A JSON text as scanned: members in source order, keys possibly repeated (RFC 8259, section 4).
  datatype Doc =
    | DNull
    | DBool(b: bool)
    | DNumber(literal: string)
    | DString(s: string)
    | DArray(items: DItems)
    | DObject(members: DMembers)
  datatype DItems = DNil | DCons(head: Doc, tail: DItems)
  datatype DMembers = DEnd | DMember(key: string, value: Doc, rest: DMembers)

  // A decoded value. A Go map is the list of its entries by strictly ascending key; numbers keep
  // their literal (UseNumber).
  datatype Value =
    | Null
    | Bool(b: bool)
    | Number(literal: string)
    | Text(s: string)
    | Array(items: Items)
    | Object(members: Members)
  datatype Items = Nil | Cons(head: Value, tail: Items)
  datatype Members = End | Member(key: string, value: Value, rest: Members)

  // Go compares strings byte by byte; on UTF-8 that is the order of the code points.
  predicate Before(a: string, b: string) {
    if b == "" then false
    else if a == "" then true
    else a[0] < b[0] || (a[0] == b[0] && Before(a[1..], b[1..]))
  }

  // m[key] = value.
  function Put(m: Members, key: string, value: Value): Members {
    match m
    case End => Member(key, value, End)
    case Member(k, v, rest) =>
      if key == k then Member(key, value, rest)
      else if Before(key, k) then Member(key, value, m)
      else Member(k, v, Put(rest, key, value))
  }

  function Decode(d: Doc): Value {
    match d
    case DNull => Null
    case DBool(b) => Bool(b)
    case DNumber(literal) => Number(literal)
    case DString(s) => Text(s)
    case DArray(items) => Array(DecodeItems(items))
    case DObject(members) => Object(DecodeMembers(members, End))
  }

  function DecodeItems(items: DItems): Items {
    match items
    case DNil => Nil
    case DCons(head, tail) => Cons(Decode(head), DecodeItems(tail))
  }

  // Members are assigned in source order, so a later one wins.
  function DecodeMembers(members: DMembers, m: Members): Members {
    match members
    case DEnd => m
    case DMember(key, value, rest) => DecodeMembers(rest, Put(m, key, Decode(value)))
  }

  // ---------- objects mean maps ----------

  function Lookup(m: Members, key: string): Option<Value> {
    match m
    case End => None
    case Member(k, v, rest) => if k == key then Some(v) else Lookup(rest, key)
  }

  // The value the source text gives to a key: that of its last member.
  function LastOf(members: DMembers, key: string): Option<Value> {
    match members
    case DEnd => None
    case DMember(k, v, rest) =>
      var later := LastOf(rest, key);
      if later.Some? then later else if k == key then Some(Decode(v)) else None
  }

  ghost predicate AllAfter(m: Members, key: string) {
    match m
    case End => true
    case Member(k, v, rest) => Before(key, k) && AllAfter(rest, key)
  }

  ghost predicate Ascending(m: Members) {
    match m
    case End => true
    case Member(k, v, rest) => AllAfter(rest, k) && Ascending(rest)
  }

  lemma {:induction false} BeforeOrder(a: string, b: string, c: string)
    ensures !Before(a, a)
    ensures a == b || Before(a, b) || Before(b, a)
    ensures !(Before(a, b) && Before(b, a))
    ensures Before(a, b) && Before(b, c) ==> Before(a, c)
    decreases |a| + |b| + |c|
  {
    if a != "" && b != "" && c != "" {
      BeforeOrder(a[1..], b[1..], c[1..]);
      if a[0] == b[0] && a[1..] == b[1..] {
        assert a == [a[0]] + a[1..] == b;
      }
    } else if a != "" && b != "" {
      BeforeOrder(a[1..], b[1..], "");
      if a[0] == b[0] && a[1..] == b[1..] {
        assert a == [a[0]] + a[1..] == b;
      }
    } else if a != "" {
      BeforeOrder(a[1..], b, c);
    }
  }

  lemma {:induction false} AllAfterMore(m: Members, key: string, earlier: string)
    requires AllAfter(m, key) && Before(earlier, key)
    ensures AllAfter(m, earlier)
  {
    if m.End? {
    } else {
      BeforeOrder(earlier, key, m.key);
      AllAfterMore(m.rest, key, earlier);
    }
  }

  lemma {:induction false} AbsentBelow(m: Members, key: string)
    requires AllAfter(m, key)
    ensures Lookup(m, key).None?
  {
    if m.End? {
    } else {
      BeforeOrder(key, key, key);
      AbsentBelow(m.rest, key);
    }
  }

  lemma {:induction false} PutAfter(m: Members, key: string, value: Value, bound: string)
    requires AllAfter(m, bound) && Before(bound, key)
    ensures AllAfter(Put(m, key, value), bound)
  {
    if m.End? || key == m.key || Before(key, m.key) {
    } else {
      PutAfter(m.rest, key, value, bound);
    }
  }

  lemma {:induction false} PutSorts(m: Members, key: string, value: Value)
    requires Ascending(m)
    ensures Ascending(Put(m, key, value))
  {
    if m.End? || key == m.key {
    } else {
      BeforeOrder(key, m.key, m.key);
      if Before(key, m.key) {
        AllAfterMore(m.rest, m.key, key);
      } else {
        PutSorts(m.rest, key, value);
        PutAfter(m.rest, key, value, m.key);
      }
    }
  }

  lemma {:induction false} PutStores(m: Members, key: string, value: Value, other: string)
    requires Ascending(m)
    ensures Lookup(Put(m, key, value), other) == if other == key then Some(value) else Lookup(m, other)
  {
    if m.End? || key == m.key || Before(key, m.key) {
    } else {
      PutStores(m.rest, key, value, other);
    }
  }

  lemma {:induction false} DecodeStores(members: DMembers, m: Members, key: string)
    requires Ascending(m)
    ensures Ascending(DecodeMembers(members, m))
    ensures Lookup(DecodeMembers(members, m), key) ==
      if LastOf(members, key).Some? then LastOf(members, key) else Lookup(m, key)
    decreases members
  {
    if members.DEnd? {
    } else {
      PutSorts(m, members.key, Decode(members.value));
      PutStores(m, members.key, Decode(members.value), key);
      DecodeStores(members.rest, Put(m, members.key, Decode(members.value)), key);
    }
  }

  // Two maps with the same entries are the same list.
  lemma {:induction false} SameEntries(m: Members, n: Members)
    requires Ascending(m) && Ascending(n)
    requires forall key :: Lookup(m, key) == Lookup(n, key)
    ensures m == n
  {
    assert m.Member? ==> Lookup(n, m.key) == Some(m.value);
    assert n.Member? ==> Lookup(m, n.key) == Some(n.value);
    if m.End? || n.End? {
    } else {
      SameFirst(m, n);
      forall key ensures Lookup(m.rest, key) == Lookup(n.rest, key) {
        if key == m.key {
          AbsentBelow(m.rest, key);
          AbsentBelow(n.rest, key);
        } else {
          assert Lookup(m, key) == Lookup(n, key);
        }
      }
      SameEntries(m.rest, n.rest);
    }
  }

  lemma SameFirst(m: Members, n: Members)
    requires m.Member? && n.Member? && Ascending(m) && Ascending(n)
    requires forall key :: Lookup(m, key) == Lookup(n, key)
    ensures m.key == n.key
  {
    assert Lookup(n, m.key) == Some(m.value) && Lookup(m, n.key) == Some(n.value);
    BeforeOrder(m.key, n.key, n.key);
    if Before(m.key, n.key) {
      AllAfterMore(n.rest, n.key, m.key);
      AbsentBelow(n, m.key);
    } else if Before(n.key, m.key) {
      AllAfterMore(m.rest, m.key, n.key);
      AbsentBelow(m, n.key);
    }
  }

  // Two object texts decode to the same value if and only if every key has the same last value:
  // neither the order of the members nor overwritten duplicates matter, and nothing else is lost.
  lemma ObjectMeaning(a: DMembers, b: DMembers)
    ensures Decode(DObject(a)) == Decode(DObject(b)) <==> forall key :: LastOf(a, key) == LastOf(b, key)
  {
    var m, n := DecodeMembers(a, End), DecodeMembers(b, End);
    forall key ensures Lookup(m, key) == LastOf(a, key) && Lookup(n, key) == LastOf(b, key) {
      DecodeStores(a, End, key);
      DecodeStores(b, End, key);
    }
    DecodeStores(a, End, "");
    DecodeStores(b, End, "");
    if m == n {
      forall key ensures LastOf(a, key) == LastOf(b, key) {
        assert Lookup(m, key) == Lookup(n, key);
      }
    } else if forall key :: Lookup(m, key) == Lookup(n, key) {
      SameEntries(m, n);
    } else {
      var key :| Lookup(m, key) != Lookup(n, key);
      assert LastOf(a, key) != LastOf(b, key);
    }
  }

  function Elements(items: DItems): seq<Doc> {
    if items.DNil? then [] else [items.head] + Elements(items.tail)
  }

  lemma {:induction false} ArrayMeaning(a: DItems, b: DItems)
    ensures DecodeItems(a) == DecodeItems(b) <==>
      && |Elements(a)| == |Elements(b)|
      && forall i | 0 <= i < |Elements(a)| :: Decode(Elements(a)[i]) == Decode(Elements(b)[i])
  {
    if a.DCons? && b.DCons? {
      ArrayMeaning(a.tail, b.tail);
      assert Elements(a)[1..] == Elements(a.tail) && Elements(b)[1..] == Elements(b.tail);
      if DecodeItems(a) == DecodeItems(b) {
        forall i | 0 <= i < |Elements(a)| ensures Decode(Elements(a)[i]) == Decode(Elements(b)[i]) {
          assert i > 0 ==> Elements(a)[i] == Elements(a.tail)[i - 1] && Elements(b)[i] == Elements(b.tail)[i - 1];
        }
      } else if |Elements(a)| == |Elements(b)|
        && forall i | 0 <= i < |Elements(a)| :: Decode(Elements(a)[i]) == Decode(Elements(b)[i])
      {
        assert Decode(Elements(a)[0]) == Decode(Elements(b)[0]);
        forall i | 0 <= i < |Elements(a.tail)| ensures Decode(Elements(a.tail)[i]) == Decode(Elements(b.tail)[i]) {
          assert Elements(a)[i + 1] == Elements(a.tail)[i] && Elements(b)[i + 1] == Elements(b.tail)[i];
        }
      }
    }
  }

  // When two texts decode to the same value: scalars if they are the same, numbers by their
  // literals; arrays element by element; objects key by key.
  lemma DecodeMeaning(a: Doc, b: Doc)
    ensures Decode(a) == Decode(b) <==>
      match a
      case DNull => b.DNull?
      case DBool(_) => b == a
      case DNumber(_) => b == a
      case DString(_) => b == a
      case DArray(items) =>
        && b.DArray? && |Elements(items)| == |Elements(b.items)|
        && forall i | 0 <= i < |Elements(items)| :: Decode(Elements(items)[i]) == Decode(Elements(b.items)[i])
      case DObject(members) => b.DObject? && forall key :: LastOf(members, key) == LastOf(b.members, key)
  {
    if a.DArray? && b.DArray? {
      ArrayMeaning(a.items, b.items);
    } else if a.DObject? && b.DObject? {
      ObjectMeaning(a.members, b.members);
    }
  }

  // ---------- encoding ----------

  const HEX := "0123456789abcdef"

  // \uXXXX for a code point below 0x10000.
  function Unicode(code: nat): string
    requires code < 0x1_0000
  {
    var high := code / 16;
    var higher := high / 16;
    ['\\', 'u', HEX[higher / 16], HEX[higher % 16], HEX[high % 16], HEX[code % 16]]
  }

  predicate Hidden(c: char) {
    c < '\U{20}' || c == '<' || c == '>' || c == '&' || c == '\U{2028}' || c == '\U{2029}'
  }

  function Escaped(c: char): string {
    if c == '"' then "\\\""
    else if c == '\\' then "\\\\"
    else if c == '\U{8}' then "\\b"
    else if c == '\U{c}' then "\\f"
    else if c == '\n' then "\\n"
    else if c == '\r' then "\\r"
    else if c == '\t' then "\\t"
    else if Hidden(c) then Unicode(c as int)
    else [c]
  }

  // The encoders write in front of what follows.

  function Quoted(s: string, rest: string): string {
    if s == "" then "\"" + rest else Escaped(s[0]) + Quoted(s[1..], rest)
  }

  function Encode(v: Value, rest: string): string {
    match v
    case Null => "null" + rest
    case Bool(b) => if b then "true" + rest else "false" + rest
    case Number(literal) => literal + rest
    case Text(s) => "\"" + Quoted(s, rest)
    case Array(items) =>
      (match items
       case Nil => "[]" + rest
       case Cons(head, tail) => "[" + Encode(head, EncodeTail(tail, rest)))
    case Object(members) =>
      (match members
       case End => "{}" + rest
       case Member(key, value, more) => "{\"" + Quoted(key, ":" + Encode(value, EncodeMore(more, rest))))
  }

  function EncodeTail(items: Items, rest: string): string {
    match items
    case Nil => "]" + rest
    case Cons(head, tail) => "," + Encode(head, EncodeTail(tail, rest))
  }

  function EncodeMore(members: Members, rest: string): string {
    match members
    case End => "}" + rest
    case Member(key, value, more) => ",\"" + Quoted(key, ":" + Encode(value, EncodeMore(more, rest)))
  }

  predicate NumberChar(c: char) {
    '0' <= c <= '9' || c == '-' || c == '+' || c == '.' || c == 'e' || c == 'E'
  }

  // What the scanner admits as a number is a non-empty run of these characters.
  predicate NumberLiteral(s: string) {
    s != "" && forall c | c in s :: NumberChar(c)
  }

  ghost predicate Scanned(v: Value) {
    match v
    case Number(literal) => NumberLiteral(literal)
    case Array(items) => ScannedItems(items)
    case Object(members) => ScannedMembers(members)
    case _ => true
  }

  ghost predicate ScannedItems(items: Items) {
    match items
    case Nil => true
    case Cons(head, tail) => Scanned(head) && ScannedItems(tail)
  }

  ghost predicate ScannedMembers(members: Members) {
    match members
    case End => true
    case Member(key, value, more) => Scanned(value) && ScannedMembers(more)
  }

  // ---------- the encoding is injective ----------

  // What may follow a value: nothing, or a character no number contains.
  predicate Stops(rest: string) {
    rest == "" || !NumberChar(rest[0])
  }

  lemma HexDigits(a: nat, b: nat)
    requires a < 16 && b < 16 && HEX[a] == HEX[b]
    ensures a == b
  {}

  lemma UnicodeSplits(c: nat, d: nat)
    requires c < 0x1_0000 && d < 0x1_0000 && Unicode(c) == Unicode(d)
    ensures c == d
  {
    var u, v := Unicode(c), Unicode(d);
    assert u[2] == v[2] && u[3] == v[3] && u[4] == v[4] && u[5] == v[5];
    HexDigits(c / 16 / 16 / 16, d / 16 / 16 / 16);
    HexDigits(c / 16 / 16 % 16, d / 16 / 16 % 16);
    HexDigits(c / 16 % 16, d / 16 % 16);
    HexDigits(c % 16, d % 16);
  }

  // The second character of an escape tells its length and its kind.
  lemma EscapedShape(c: char)
    ensures Escaped(c) != "" && Escaped(c)[0] != '"'
    ensures Escaped(c)[0] == '\\' <==> Escaped(c) != [c]
    ensures Escaped(c) != [c] ==> |Escaped(c)| == if Escaped(c)[1] == 'u' then 6 else 2
  {}

  lemma EscapedInjective(c: char, d: char)
    requires Escaped(c) == Escaped(d)
    ensures c == d
  {
    EscapedShape(c);
    EscapedShape(d);
    if |Escaped(c)| == 6 {
      UnicodeSplits(c as int, d as int);
    }
  }

  lemma EscapedSplits(c: char, d: char, x: string, y: string)
    requires Escaped(c) + x == Escaped(d) + y
    ensures c == d && x == y
  {
    EscapedShape(c);
    EscapedShape(d);
    var whole := Escaped(c) + x;
    assert whole[0] == Escaped(c)[0] == Escaped(d)[0];
    if |Escaped(c)| > 1 && |Escaped(d)| > 1 {
      assert whole[1] == Escaped(c)[1] == Escaped(d)[1];
    }
    assert |Escaped(c)| == |Escaped(d)|;
    assert whole[..|Escaped(c)|] == Escaped(c) == Escaped(d);
    assert whole[|Escaped(c)|..] == x == y;
    EscapedInjective(c, d);
  }

  lemma {:induction false} QuotedSplits(s: string, t: string, x: string, y: string)
    requires Quoted(s, x) == Quoted(t, y)
    ensures s == t && x == y
  {
    if s != "" {
      EscapedShape(s[0]);
    }
    if t != "" {
      EscapedShape(t[0]);
    }
    assert Quoted(s, x)[0] == Quoted(t, y)[0];
    if s == "" && t == "" {
      assert Quoted(s, x)[1..] == x && Quoted(t, y)[1..] == y;
    } else if s != "" && t != "" {
      EscapedSplits(s[0], t[0], Quoted(s[1..], x), Quoted(t[1..], y));
      QuotedSplits(s[1..], t[1..], x, y);
      assert s == [s[0]] + s[1..] && t == [t[0]] + t[1..];
    }
  }

  lemma {:induction false} NumberSplits(a: string, b: string, x: string, y: string)
    requires (forall c | c in a :: NumberChar(c)) && (forall c | c in b :: NumberChar(c))
    requires Stops(x) && Stops(y) && a + x == b + y
    ensures a == b && x == y
  {
    var whole := a + x;
    assert a != "" ==> whole[0] == a[0] && a[0] in a;
    assert b != "" ==> whole[0] == b[0] && b[0] in b;
    assert a == "" ==> whole == x;
    assert b == "" ==> whole == y;
    if a == "" || b == "" {
    } else {
      assert whole[1..] == a[1..] + x == b[1..] + y;
      NumberSplits(a[1..], b[1..], x, y);
      assert a == [a[0]] + a[1..] && b == [b[0]] + b[1..];
    }
  }

  // The first character names the kind of value.
  function Kind(v: Value): int {
    match v
    case Null => 0
    case Bool(b) => if b then 1 else 2
    case Number(_) => 3
    case Text(_) => 4
    case Array(_) => 5
    case Object(_) => 6
  }

  function KindOf(c: char): int {
    if c == 'n' then 0 else if c == 't' then 1 else if c == 'f' then 2
    else if c == '"' then 4 else if c == '[' then 5 else if c == '{' then 6 else 3
  }

  lemma FirstChar(v: Value, rest: string)
    requires Scanned(v)
    ensures Encode(v, rest) != "" && KindOf(Encode(v, rest)[0]) == Kind(v)
    ensures Encode(v, rest)[0] != ']' && Encode(v, rest)[0] != '}'
  {
    if v.Number? {
      assert v.literal[0] in v.literal;
    }
  }

  lemma {:induction false} EncodeSplits(v: Value, w: Value, x: string, y: string)
    requires Scanned(v) && Scanned(w) && Stops(x) && Stops(y)
    requires Encode(v, x) == Encode(w, y)
    ensures v == w && x == y
    decreases v
  {
    FirstChar(v, x);
    FirstChar(w, y);
    assert Kind(v) == Kind(w);
    match v
    case Null => assert Encode(v, x)[4..] == x && Encode(w, y)[4..] == y;
    case Bool(b) =>
      var n := if b then 4 else 5;
      assert Encode(v, x)[n..] == x && Encode(w, y)[n..] == y;
    case Number(literal) => NumberSplits(literal, w.literal, x, y);
    case Text(s) =>
      assert Encode(v, x)[1..] == Quoted(s, x) && Encode(w, y)[1..] == Quoted(w.s, y);
      QuotedSplits(s, w.s, x, y);
    case Array(items) => ArraySplits(items, w.items, x, y);
    case Object(members) => ObjectSplits(members, w.members, x, y);
  }

  lemma TailStops(items: Items, rest: string)
    ensures Stops(EncodeTail(items, rest)) && EncodeTail(items, rest) != ""
    ensures EncodeTail(items, rest)[0] == if items.Nil? then ']' else ','
  {}

  lemma MoreStops(members: Members, rest: string)
    ensures Stops(EncodeMore(members, rest)) && EncodeMore(members, rest) != ""
    ensures EncodeMore(members, rest)[0] == if members.End? then '}' else ','
  {}

  lemma {:induction false} ArraySplits(a: Items, b: Items, x: string, y: string)
    requires ScannedItems(a) && ScannedItems(b) && Stops(x) && Stops(y)
    requires Encode(Array(a), x) == Encode(Array(b), y)
    ensures a == b && x == y
    decreases a, 1
  {
    if a.Cons? {
      FirstChar(a.head, EncodeTail(a.tail, x));
    }
    if b.Cons? {
      FirstChar(b.head, EncodeTail(b.tail, y));
    }
    var p, q := Encode(Array(a), x), Encode(Array(b), y);
    assert p[1] == q[1];
    if a.Nil? && b.Nil? {
      assert p[2..] == x && q[2..] == y;
    } else if a.Cons? && b.Cons? {
      assert p[1..] == Encode(a.head, EncodeTail(a.tail, x)) && q[1..] == Encode(b.head, EncodeTail(b.tail, y));
      TailStops(a.tail, x);
      TailStops(b.tail, y);
      EncodeSplits(a.head, b.head, EncodeTail(a.tail, x), EncodeTail(b.tail, y));
      TailSplits(a.tail, b.tail, x, y);
    }
  }

  lemma {:induction false} TailSplits(a: Items, b: Items, x: string, y: string)
    requires ScannedItems(a) && ScannedItems(b) && Stops(x) && Stops(y)
    requires EncodeTail(a, x) == EncodeTail(b, y)
    ensures a == b && x == y
    decreases a, 0
  {
    TailStops(a, x);
    TailStops(b, y);
    var p, q := EncodeTail(a, x), EncodeTail(b, y);
    if a.Nil? && b.Nil? {
      assert p[1..] == x && q[1..] == y;
    } else if a.Cons? && b.Cons? {
      assert p[1..] == Encode(a.head, EncodeTail(a.tail, x)) && q[1..] == Encode(b.head, EncodeTail(b.tail, y));
      TailStops(a.tail, x);
      TailStops(b.tail, y);
      EncodeSplits(a.head, b.head, EncodeTail(a.tail, x), EncodeTail(b.tail, y));
      TailSplits(a.tail, b.tail, x, y);
    }
  }

  // A member behind its opening quote.
  lemma {:induction false} MemberSplits(a: Members, b: Members, x: string, y: string)
    requires a.Member? && b.Member? && ScannedMembers(a) && ScannedMembers(b) && Stops(x) && Stops(y)
    requires Quoted(a.key, ":" + Encode(a.value, EncodeMore(a.rest, x))) ==
             Quoted(b.key, ":" + Encode(b.value, EncodeMore(b.rest, y)))
    ensures a == b && x == y
    decreases a, 0
  {
    var p, q := ":" + Encode(a.value, EncodeMore(a.rest, x)), ":" + Encode(b.value, EncodeMore(b.rest, y));
    QuotedSplits(a.key, b.key, p, q);
    assert p[1..] == Encode(a.value, EncodeMore(a.rest, x)) && q[1..] == Encode(b.value, EncodeMore(b.rest, y));
    MoreStops(a.rest, x);
    MoreStops(b.rest, y);
    EncodeSplits(a.value, b.value, EncodeMore(a.rest, x), EncodeMore(b.rest, y));
    MoreSplits(a.rest, b.rest, x, y);
  }

  lemma {:induction false} MoreSplits(a: Members, b: Members, x: string, y: string)
    requires ScannedMembers(a) && ScannedMembers(b) && Stops(x) && Stops(y)
    requires EncodeMore(a, x) == EncodeMore(b, y)
    ensures a == b && x == y
    decreases a, 1
  {
    MoreStops(a, x);
    MoreStops(b, y);
    var p, q := EncodeMore(a, x), EncodeMore(b, y);
    if a.End? && b.End? {
      assert p[1..] == x && q[1..] == y;
    } else if a.Member? && b.Member? {
      assert p[2..] == Quoted(a.key, ":" + Encode(a.value, EncodeMore(a.rest, x)));
      assert q[2..] == Quoted(b.key, ":" + Encode(b.value, EncodeMore(b.rest, y)));
      MemberSplits(a, b, x, y);
    }
  }

  lemma {:induction false} ObjectSplits(a: Members, b: Members, x: string, y: string)
    requires ScannedMembers(a) && ScannedMembers(b) && Stops(x) && Stops(y)
    requires Encode(Object(a), x) == Encode(Object(b), y)
    ensures a == b && x == y
    decreases a, 1
  {
    var p, q := Encode(Object(a), x), Encode(Object(b), y);
    assert p[1] == q[1];
    if a.End? && b.End? {
      assert p[2..] == x && q[2..] == y;
    } else if a.Member? && b.Member? {
      assert p[2..] == Quoted(a.key, ":" + Encode(a.value, EncodeMore(a.rest, x)));
      assert q[2..] == Quoted(b.key, ":" + Encode(b.value, EncodeMore(b.rest, y)));
      MemberSplits(a, b, x, y);
    }
  }

  // ---------- the hash ----------

  const NUL: char := '\0'

  function Preimage(destination: string, v: Value): string {
    destination + [NUL] + Encode(v, "")
  }

  // `None` is a payload that does not parse as exactly one JSON text.
  function RequestHash(destination: string, payload: Option<Doc>): Option<string> {
    if payload.None? then None else Some(Preimage(destination, Decode(payload.value)))
  }

  predicate NoNul(s: string) {
    forall c | c in s :: c != NUL
  }

  lemma JoinNoNul(x: string, y: string)
    requires NoNul(x) && NoNul(y)
    ensures NoNul(x + y)
  {}

  lemma HexNoNul(a: nat)
    requires a < 16
    ensures HEX[a] != NUL
  {}

  lemma UnicodeNoNul(code: nat)
    requires code < 0x1_0000
    ensures NoNul(Unicode(code))
  {
    HexNoNul(code / 16 / 16 / 16);
    HexNoNul(code / 16 / 16 % 16);
    HexNoNul(code / 16 % 16);
    HexNoNul(code % 16);
  }

  lemma EscapedNoNul(c: char)
    ensures NoNul(Escaped(c))
  {
    EscapedShape(c);
    if Escaped(c) == [c] {
      assert c != NUL;
    } else if |Escaped(c)| == 6 {
      UnicodeNoNul(c as int);
    } else {
      PairNoNul(Escaped(c)[0], Escaped(c)[1]);
      assert Escaped(c) == [Escaped(c)[0], Escaped(c)[1]];
    }
  }

  lemma PairNoNul(a: char, b: char)
    requires a != NUL && b != NUL
    ensures NoNul([a, b])
  {}

  lemma {:induction false} QuotedNoNul(s: string, rest: string)
    requires NoNul(rest)
    ensures NoNul(Quoted(s, rest))
  {
    if s == "" {
    } else {
      QuotedNoNul(s[1..], rest);
      EscapedNoNul(s[0]);
      JoinNoNul(Escaped(s[0]), Quoted(s[1..], rest));
    }
  }

  lemma {:induction false} EncodeNoNul(v: Value, rest: string)
    requires Scanned(v) && NoNul(rest)
    ensures NoNul(Encode(v, rest))
    decreases v, 1
  {
    match v
    case Text(s) => QuotedNoNul(s, rest);
    case Array(items) =>
      if items.Cons? {
        TailNoNul(items.tail, rest);
        EncodeNoNul(items.head, EncodeTail(items.tail, rest));
      }
    case Object(members) =>
      if members.Member? {
        MoreNoNul(members.rest, rest);
        EncodeNoNul(members.value, EncodeMore(members.rest, rest));
        QuotedNoNul(members.key, ":" + Encode(members.value, EncodeMore(members.rest, rest)));
      }
    case _ =>
  }

  lemma {:induction false} TailNoNul(items: Items, rest: string)
    requires ScannedItems(items) && NoNul(rest)
    ensures NoNul(EncodeTail(items, rest))
    decreases items, 0
  {
    if items.Nil? {
    } else {
      TailNoNul(items.tail, rest);
      EncodeNoNul(items.head, EncodeTail(items.tail, rest));
    }
  }

  lemma {:induction false} MoreNoNul(members: Members, rest: string)
    requires ScannedMembers(members) && NoNul(rest)
    ensures NoNul(EncodeMore(members, rest))
    decreases members, 0
  {
    if members.End? {
    } else {
      MoreNoNul(members.rest, rest);
      EncodeNoNul(members.value, EncodeMore(members.rest, rest));
      QuotedNoNul(members.key, ":" + Encode(members.value, EncodeMore(members.rest, rest)));
    }
  }

  lemma NoNulBehind(d: string, x: string)
    requires NoNul(x)
    ensures forall i | |d| < i < |d + [NUL] + x| :: (d + [NUL] + x)[i] != NUL
  {
    forall i | |d| < i < |d + [NUL] + x| ensures (d + [NUL] + x)[i] != NUL {
      assert (d + [NUL] + x)[i] == x[i - |d| - 1] && x[i - |d| - 1] in x;
    }
  }

  // The last NUL separates, whatever the destination's name contains.
  lemma LastNulSplits(d: string, e: string, x: string, y: string)
    requires NoNul(x) && NoNul(y) && d + [NUL] + x == e + [NUL] + y
    ensures d == e && x == y
  {
    var whole := d + [NUL] + x;
    assert whole[|d|] == whole[|e|] == NUL;
    NoNulBehind(d, x);
    NoNulBehind(e, y);
    if |d| == |e| {
      assert whole[..|d|] == d == e;
      assert whole[|d| + 1..] == x == y;
    }
  }

  // Two requests have the same hash if and only if they name the same destination and their
  // payloads decode to the same value.
  lemma SameHash(d: string, a: Doc, e: string, b: Doc)
    requires Scanned(Decode(a)) && Scanned(Decode(b))
    ensures RequestHash(d, Some(a)) == RequestHash(e, Some(b)) <==> d == e && Decode(a) == Decode(b)
  {
    if RequestHash(d, Some(a)) == RequestHash(e, Some(b)) {
      EncodeNoNul(Decode(a), "");
      EncodeNoNul(Decode(b), "");
      LastNulSplits(d, e, Encode(Decode(a), ""), Encode(Decode(b), ""));
      EncodeSplits(Decode(a), Decode(b), "", "");
    }
  }

  // For objects: same destination and, key by key, the same last value, in whatever order.
  lemma ObjectHash(d: string, a: DMembers, e: string, b: DMembers)
    requires Scanned(Decode(DObject(a))) && Scanned(Decode(DObject(b)))
    ensures RequestHash(d, Some(DObject(a))) == RequestHash(e, Some(DObject(b)))
      <==> d == e && forall key :: LastOf(a, key) == LastOf(b, key)
  {
    SameHash(d, DObject(a), e, DObject(b));
    ObjectMeaning(a, b);
  }
}
