/** An index entry's key (`columns.rs`, `encoded`): values written one after another so that
    keys sort as the values do, and a range of keys is a range of values. */
module Encoding {

  /** Each a byte: less than 256. */
  type Bytes = seq<nat>

  predicate AreBytes(b: Bytes) {
    forall i | 0 <= i < |b| :: b[i] < 256
  }

  /** The order an engine keeps its keys in. */
  predicate Less(a: Bytes, b: Bytes) {
    if b == [] then false
    else if a == [] then true
    else a[0] < b[0] || (a[0] == b[0] && Less(a[1..], b[1..]))
  }

  lemma {:induction false} LessParts(a: Bytes, b: Bytes, x: Bytes, y: Bytes)
    requires |a| == |b|
    ensures Less(a + x, b + y) <==> Less(a, b) || (a == b && Less(x, y))
  {
    if a == [] {
      assert a + x == x && b + y == y;
    } else {
      assert (a + x)[1..] == a[1..] + x && (b + y)[1..] == b[1..] + y;
      LessParts(a[1..], b[1..], x, y);
      assert a == [a[0]] + a[1..] && b == [b[0]] + b[1..];
    }
  }

  lemma {:induction false} NotLessItself(a: Bytes)
    ensures !Less(a, a)
  {
    if a != [] {
      NotLessItself(a[1..]);
    }
  }

  lemma {:induction false} LessOneWay(a: Bytes, b: Bytes)
    requires Less(a, b)
    ensures !Less(b, a)
  {
    if a != [] && a[0] == b[0] {
      LessOneWay(a[1..], b[1..]);
    }
  }

  /** What lies from one key with a prefix to another has the prefix. */
  lemma {:induction false} BetweenHasPrefix(p: Bytes, x: Bytes, y: Bytes, k: Bytes)
    requires !Less(k, p + x) && !Less(p + y, k)
    ensures p <= k
  {
    if p != [] {
      assert (p + x)[0] == p[0] == (p + y)[0];
      assert (p + x)[1..] == p[1..] + x && (p + y)[1..] == p[1..] + y;
      assert k != [] && k[0] == p[0];
      BetweenHasPrefix(p[1..], x, y, k[1..]);
    }
  }

  // ---- Numbers, big-endian. ----

  function Pow256(width: nat): (p: nat)
    ensures p > 0
  {
    if width == 0 then 1 else 256 * Pow256(width - 1)
  }

  function BigEndian(n: nat, width: nat): (b: Bytes)
    ensures |b| == width && AreBytes(b)
  {
    if width == 0 then [] else BigEndian(n / 256, width - 1) + [n % 256]
  }

  lemma {:induction false} BigEndianSorts(m: nat, n: nat, width: nat)
    requires m < Pow256(width) && n < Pow256(width)
    ensures Less(BigEndian(m, width), BigEndian(n, width)) <==> m < n
    ensures BigEndian(m, width) == BigEndian(n, width) <==> m == n
  {
    if width > 0 {
      assert m / 256 < Pow256(width - 1) && n / 256 < Pow256(width - 1);
      BigEndianSorts(m / 256, n / 256, width - 1);
      var a, b := BigEndian(m / 256, width - 1), BigEndian(n / 256, width - 1);
      LessParts(a, b, [m % 256], [n % 256]);
      assert Less([m % 256], [n % 256]) <==> m % 256 < n % 256 by {
        assert [m % 256][1..] == [] && [n % 256][1..] == [];
      }
      assert BigEndian(m, width) == a + [m % 256] && BigEndian(n, width) == b + [n % 256];
      assert a + [m % 256] == b + [n % 256] ==> a == b && m % 256 == n % 256 by {
        assert (a + [m % 256])[..|a|] == a && (b + [n % 256])[..|b|] == b;
        assert (a + [m % 256])[|a|] == m % 256 && (b + [n % 256])[|b|] == n % 256;
      }
    }
  }

  function Full(length: nat): (b: Bytes)
    ensures |b| == length
  {
    if length == 0 then [] else [255] + Full(length - 1)
  }

  /** Bytes enough of all ones come after every shorter key. */
  lemma {:induction false} FullIsLast(x: Bytes, length: nat)
    requires AreBytes(x) && |x| < length
    ensures Less(x, Full(length))
  {
    if x != [] {
      assert Full(length)[1..] == Full(length - 1);
      FullIsLast(x[1..], length - 1);
    }
  }

  // ---- Values. ----

  datatype Kind = ATime | ACount | AFlag | AText | AnId

  /** Bytes are kept as words are. */
  datatype Value = Time(nanos: nat) | Count(count: nat) | Flag(on: bool) | Text(text: Bytes) | Ident(id: nat)

  function KindOf(v: Value): Kind {
    match v
    case Time(_) => ATime
    case Count(_) => ACount
    case Flag(_) => AFlag
    case Text(_) => AText
    case Ident(_) => AnId
  }

  /** What its width holds. */
  predicate InWidth(v: Value) {
    match v
    case Time(nanos) => nanos < Pow256(8)
    case Count(count) => count < Pow256(8)
    case Flag(_) => true
    case Text(text) => AreBytes(text) && |text| < Pow256(4)
    case Ident(id) => id < Pow256(16)
  }

  function Encoded(v: Value): (b: Bytes)
    requires InWidth(v)
    ensures AreBytes(b)
  {
    match v
    case Time(nanos) => BigEndian(nanos, 8)
    case Count(count) => BigEndian(count, 8)
    case Flag(on) => [if on then 1 else 0]
    case Text(text) => BigEndian(|text|, 4) + text
    case Ident(id) => BigEndian(id, 16)
  }

  lemma SplitAt(a: Bytes, b: Bytes, x: Bytes, y: Bytes)
    requires |a| == |b| && a + x == b + y
    ensures a == b && x == y
  {
    assert (a + x)[..|a|] == a && (b + y)[..|b|] == b;
    assert (a + x)[|a|..] == x && (b + y)[|b|..] == y;
  }

  lemma NumberEnds(m: nat, n: nat, width: nat, x: Bytes, y: Bytes)
    requires m < Pow256(width) && n < Pow256(width)
    requires BigEndian(m, width) + x == BigEndian(n, width) + y
    ensures m == n && x == y
  {
    hide BigEndian;
    SplitAt(BigEndian(m, width), BigEndian(n, width), x, y);
    BigEndianSorts(m, n, width);
  }

  lemma Joined(a: Bytes, b: Bytes, c: Bytes)
    ensures (a + b) + c == a + (b + c)
  {
  }

  lemma TextEnds(s: Bytes, t: Bytes, x: Bytes, y: Bytes)
    requires |s| < Pow256(4) && |t| < Pow256(4)
    requires (BigEndian(|s|, 4) + s) + x == (BigEndian(|t|, 4) + t) + y
    ensures s == t && x == y
  {
    hide BigEndian, Pow256, AreBytes;
    var ls, lt := BigEndian(|s|, 4), BigEndian(|t|, 4);
    Joined(ls, s, x);
    Joined(lt, t, y);
    NumberEnds(|s|, |t|, 4, s + x, t + y);
    SplitAt(s, t, x, y);
  }

  /** A value says where it ends: two keys that begin with values of one kind and go on alike
      begin with the same value. */
  lemma EncodedEnds(a: Value, b: Value, x: Bytes, y: Bytes)
    requires InWidth(a) && InWidth(b) && KindOf(a) == KindOf(b)
    requires Encoded(a) + x == Encoded(b) + y
    ensures a == b && x == y
  {
    hide BigEndian, Pow256;
    match a {
      case Time(nanos) => NumberEnds(nanos, b.nanos, 8, x, y);
      case Count(count) => NumberEnds(count, b.count, 8, x, y);
      case Flag(_) => SplitAt(Encoded(a), Encoded(b), x, y);
      case Ident(id) => NumberEnds(id, b.id, 16, x, y);
      case Text(text) => TextEnds(text, b.text, x, y);
    }
  }

  predicate AllInWidth(values: seq<Value>) {
    forall i | 0 <= i < |values| :: InWidth(values[i])
  }

  function EncodedAll(values: seq<Value>): (b: Bytes)
    requires AllInWidth(values)
    ensures AreBytes(b)
  {
    if values == [] then [] else Encoded(values[0]) + EncodedAll(values[1..])
  }

  predicate SameKinds(a: seq<Value>, b: seq<Value>) {
    |a| == |b| && forall i | 0 <= i < |a| :: KindOf(a[i]) == KindOf(b[i])
  }

  lemma {:induction false} EncodedAllEnds(a: seq<Value>, b: seq<Value>, x: Bytes, y: Bytes)
    requires AllInWidth(a) && AllInWidth(b) && SameKinds(a, b)
    requires EncodedAll(a) + x == EncodedAll(b) + y
    ensures a == b && x == y
  {
    hide Encoded, AreBytes, InWidth;
    if a == [] {
      assert EncodedAll(a) + x == x && EncodedAll(b) + y == y;
    } else {
      assert EncodedAll(a) + x == Encoded(a[0]) + (EncodedAll(a[1..]) + x);
      assert EncodedAll(b) + y == Encoded(b[0]) + (EncodedAll(b[1..]) + y);
      EncodedEnds(a[0], b[0], EncodedAll(a[1..]) + x, EncodedAll(b[1..]) + y);
      EncodedAllEnds(a[1..], b[1..], x, y);
      assert a == [a[0]] + a[1..] && b == [b[0]] + b[1..];
    }
  }

  lemma {:induction false} EncodedAppends(a: seq<Value>, b: seq<Value>)
    requires AllInWidth(a) && AllInWidth(b)
    ensures AllInWidth(a + b) && EncodedAll(a + b) == EncodedAll(a) + EncodedAll(b)
  {
    hide Encoded, AreBytes, InWidth;
    if a == [] {
      assert a + b == b;
    } else {
      assert (a + b)[0] == a[0] && (a + b)[1..] == a[1..] + b;
      EncodedAppends(a[1..], b);
      Joined(Encoded(a[0]), EncodedAll(a[1..]), EncodedAll(b));
    }
  }
}
