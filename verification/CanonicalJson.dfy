/** The byte encoding of a JSON value that a command's payload is hashed over
    (crates/stateful-core/src/resource.rs). Equal bytes mean equal values, up to the
    order of object keys. */
module CanonicalJson {

  type Byte = n: nat | n < 256
  type Bytes = seq<Byte>

  /** A number is its decimal text. The members of an object stand in any order. */
  datatype Json =
    | Null
    | Bool(truth: bool)
    | Number(text: Bytes)
    | Text(utf8: Bytes)
    | Array(values: seq<Json>)
    | Object(members: seq<Member>)

  datatype Member = Member(key: Bytes, value: Json)

  const LIMIT: nat := 0x1_0000_0000_0000_0000

  predicate DistinctKeys(ms: seq<Member>) {
    forall i, j :: 0 <= i < j < |ms| ==> ms[i].key != ms[j].key
  }

  /** Lengths fit in eight bytes and an object has each key once. */
  predicate WellFormed(v: Json) {
    match v
    case Number(text) => |text| < LIMIT
    case Text(utf8) => |utf8| < LIMIT
    case Array(values) => |values| < LIMIT && forall w :: w in values ==> WellFormed(w)
    case Object(members) =>
      && |members| < LIMIT && DistinctKeys(members)
      && forall m :: m in members ==> |m.key| < LIMIT && WellFormed(m.value)
    case _ => true
  }

  // ------------------------------------------------------------- key order

  /** Byte-wise lexicographic order. */
  predicate Before(a: Bytes, b: Bytes) {
    if b == [] then false
    else if a == [] then true
    else a[0] < b[0] || (a[0] == b[0] && Before(a[1..], b[1..]))
  }

  lemma {:induction false} BeforeTotal(a: Bytes, b: Bytes)
    ensures a == b || Before(a, b) || Before(b, a)
    ensures !(Before(a, b) && Before(b, a)) && (Before(a, b) ==> a != b)
  {
    if a != [] && b != [] {
      BeforeTotal(a[1..], b[1..]);
      assert a == [a[0]] + a[1..] && b == [b[0]] + b[1..];
    }
  }

  lemma {:induction false} BeforeTransitive(a: Bytes, b: Bytes, c: Bytes)
    requires Before(a, b) && Before(b, c)
    ensures Before(a, c)
  {
    if a != [] && a[0] == b[0] && b[0] == c[0] { BeforeTransitive(a[1..], b[1..], c[1..]); }
  }

  predicate Ascending(ms: seq<Member>) {
    forall i, j :: 0 <= i < j < |ms| ==> Before(ms[i].key, ms[j].key)
  }

  function Insert(m: Member, ms: seq<Member>): (r: seq<Member>)
    ensures |r| == |ms| + 1 && multiset(r) == multiset(ms) + multiset{m}
  {
    if ms == [] || Before(m.key, ms[0].key) then
      assert [m] + ms == [m] + ms;
      [m] + ms
    else
      assert ms == [ms[0]] + ms[1..];
      [ms[0]] + Insert(m, ms[1..])
  }

  /** The members by ascending key. */
  function Sort(ms: seq<Member>): (r: seq<Member>)
    ensures |r| == |ms| && multiset(r) == multiset(ms)
  {
    if ms == [] then []
    else
      assert ms == [ms[0]] + ms[1..];
      Insert(ms[0], Sort(ms[1..]))
  }

  lemma SortMembers(ms: seq<Member>)
    ensures forall m :: m in Sort(ms) <==> m in ms
  {
    forall m ensures m in Sort(ms) <==> m in ms {
      assert m in Sort(ms) <==> m in multiset(Sort(ms));
      assert m in ms <==> m in multiset(ms);
    }
  }

  lemma {:induction false} InsertAscends(m: Member, ms: seq<Member>)
    requires Ascending(ms) && forall n :: n in ms ==> n.key != m.key
    ensures Ascending(Insert(m, ms))
  {
    if ms == [] {
    } else if Before(m.key, ms[0].key) {
      forall j | 0 <= j < |ms| ensures Before(m.key, ms[j].key) {
        if j > 0 { BeforeTransitive(m.key, ms[0].key, ms[j].key); }
      }
    } else {
      assert ms[0] in ms;
      BeforeTotal(m.key, ms[0].key);
      InsertAscends(m, ms[1..]);
      var rest := Insert(m, ms[1..]);
      forall j | 0 <= j < |rest| ensures Before(ms[0].key, rest[j].key) {
        assert rest[j] in multiset(ms[1..]) + multiset{m};
        if rest[j] != m {
          var k :| 0 <= k < |ms[1..]| && ms[1..][k] == rest[j];
          assert ms[k + 1] == rest[j];
        }
      }
    }
  }

  lemma {:induction false} SortAscends(ms: seq<Member>)
    requires DistinctKeys(ms)
    ensures Ascending(Sort(ms))
  {
    if ms != [] {
      SortAscends(ms[1..]);
      SortMembers(ms[1..]);
      forall n | n in Sort(ms[1..]) ensures n.key != ms[0].key {
        var k :| 0 <= k < |ms[1..]| && ms[1..][k] == n;
        assert ms[k + 1] == n;
      }
      InsertAscends(ms[0], Sort(ms[1..]));
    }
  }

  // -------------------------------------------------------------- encoding

  /** The low `k` bytes of a number, most significant first. */
  function BytesOf(n: nat, k: nat): (r: Bytes)
    ensures |r| == k
  {
    if k == 0 then [] else BytesOf(n / 256, k - 1) + [n % 256]
  }

  function BigEndian(n: nat): (r: Bytes)
    ensures |r| == 8
  {
    BytesOf(n, 8)
  }

  const TAG_NULL: Byte := 110
  const TAG_BOOL: Byte := 98
  const TAG_NUMBER: Byte := 100
  const TAG_TEXT: Byte := 115
  const TAG_ARRAY: Byte := 97
  const TAG_OBJECT: Byte := 111
  const TAG_KEY: Byte := 107
  const ZERO: Byte := 48
  const ONE: Byte := 49

  /** A tag, the length and the bytes. */
  function Atom(tag: Byte, bytes: Bytes): Bytes { [tag] + BigEndian(|bytes|) + bytes }

  function Encode(v: Json): Bytes
    decreases v, 1, 0
  {
    match v
    case Null => [TAG_NULL]
    case Bool(truth) => [TAG_BOOL, if truth then ONE else ZERO]
    case Number(text) => Atom(TAG_NUMBER, text)
    case Text(utf8) => Atom(TAG_TEXT, utf8)
    case Array(values) => [TAG_ARRAY] + BigEndian(|values|) + EncodeAll(values)
    case Object(members) =>
      SortMembers(members);
      [TAG_OBJECT] + BigEndian(|members|) + EncodeMembers(v, Sort(members))
  }

  function EncodeAll(values: seq<Json>): Bytes
    decreases values, 0, |values|
  {
    if values == [] then [] else Encode(values[0]) + EncodeAll(values[1..])
  }

  function EncodeMembers(ghost bound: Json, ms: seq<Member>): Bytes
    requires bound.Object? && forall m :: m in ms ==> m in bound.members
    decreases bound, 0, |ms|
  {
    if ms == [] then []
    else
      assert ms[0] in bound.members;
      Atom(TAG_KEY, ms[0].key) + Encode(ms[0].value) + EncodeMembers(bound, ms[1..])
  }

  // ------------------------------------------------------------ equivalence

  /** Equal up to the order of object members. */
  predicate Equivalent(v: Json, w: Json)
    decreases v
  {
    match v
    case Array(values) =>
      w.Array? && |values| == |w.values| && forall i :: 0 <= i < |values| ==> Equivalent(values[i], w.values[i])
    case Object(members) =>
      w.Object? && |members| == |w.members|
      && forall m :: m in members ==> exists n :: n in w.members && n.key == m.key && Equivalent(m.value, n.value)
    case _ => v == w
  }

  // --------------------------------------------------------- unique decoding

  function Power(k: nat): nat { if k == 0 then 1 else 256 * Power(k - 1) }

  lemma {:induction false} BytesDetermine(a: nat, b: nat, k: nat)
    requires a < Power(k) && b < Power(k) && BytesOf(a, k) == BytesOf(b, k)
    ensures a == b
  {
    if k > 0 {
      var x, y := BytesOf(a / 256, k - 1), BytesOf(b / 256, k - 1);
      assert (x + [a % 256])[k - 1] == a % 256 && (y + [b % 256])[k - 1] == b % 256;
      assert (x + [a % 256])[..k - 1] == x && (y + [b % 256])[..k - 1] == y;
      BytesDetermine(a / 256, b / 256, k - 1);
    }
  }

  /** Eight bytes determine every length below the limit. */
  lemma BigEndianInjective(a: nat, b: nat)
    requires a < LIMIT && b < LIMIT && BigEndian(a) == BigEndian(b)
    ensures a == b
  {
    hide BytesOf;
    assert Power(4) == 0x1_0000_0000;
    assert Power(8) == LIMIT;
    BytesDetermine(a, b, 8);
  }

  lemma CutEqual(a: Bytes, b: Bytes, s: Bytes, t: Bytes)
    requires |a| == |b| && a + s == b + t
    ensures a == b && s == t
  {
    assert (a + s)[..|a|] == a && (b + t)[..|b|] == b;
    assert (a + s)[|a|..] == s && (b + t)[|b|..] == t;
  }

  lemma AtomPrefixFree(tag: Byte, a: Bytes, b: Bytes, s: Bytes, t: Bytes)
    requires |a| < LIMIT && |b| < LIMIT && Atom(tag, a) + s == Atom(tag, b) + t
    ensures a == b && s == t
  {
    hide BigEndian;
    assert Atom(tag, a) + s == ([tag] + BigEndian(|a|)) + (a + s);
    assert Atom(tag, b) + t == ([tag] + BigEndian(|b|)) + (b + t);
    CutEqual([tag] + BigEndian(|a|), [tag] + BigEndian(|b|), a + s, b + t);
    CutEqual([tag], [tag], BigEndian(|a|), BigEndian(|b|));
    BigEndianInjective(|a|, |b|);
    CutEqual(a, b, s, t);
  }

  lemma HeaderPrefixFree(tag: Byte, n: nat, m: nat, s: Bytes, t: Bytes)
    requires n < LIMIT && m < LIMIT && [tag] + BigEndian(n) + s == [tag] + BigEndian(m) + t
    ensures n == m && s == t
  {
    hide BigEndian;
    CutEqual([tag] + BigEndian(n), [tag] + BigEndian(m), s, t);
    CutEqual([tag], [tag], BigEndian(n), BigEndian(m));
    BigEndianInjective(n, m);
  }

  function Tag(v: Json): Byte {
    match v
    case Null => TAG_NULL
    case Bool(_) => TAG_BOOL
    case Number(_) => TAG_NUMBER
    case Text(_) => TAG_TEXT
    case Array(_) => TAG_ARRAY
    case Object(_) => TAG_OBJECT
  }

  lemma Tagged(v: Json)
    ensures Encode(v) != [] && Encode(v)[0] == Tag(v)
  {
    hide BigEndian;
  }

  lemma ObjectEncoding(v: Json)
    requires v.Object?
    ensures |Sort(v.members)| == |v.members| && forall m :: m in Sort(v.members) <==> m in v.members
    ensures Encode(v) == [TAG_OBJECT] + BigEndian(|v.members|) + EncodeMembers(v, Sort(v.members))
  {
    hide BigEndian, Sort;
    SortMembers(v.members);
  }

  /** No encoding is a proper prefix of another, and equal encodings come from
      equivalent values. */
  lemma {:induction false} PrefixFree(v: Json, w: Json, s: Bytes, t: Bytes)
    requires WellFormed(v) && WellFormed(w) && Encode(v) + s == Encode(w) + t
    ensures Equivalent(v, w) && s == t
    decreases v, 1, 0
  {
    hide BigEndian, Sort;
    Tagged(v);
    Tagged(w);
    assert (Encode(v) + s)[0] == Tag(v) && (Encode(w) + t)[0] == Tag(w);
    match v
    case Null =>
      CutEqual(Encode(v), Encode(w), s, t);
    case Bool(_) =>
      CutEqual(Encode(v), Encode(w), s, t);
      assert Encode(v)[1] == Encode(w)[1];
    case Number(text) =>
      AtomPrefixFree(TAG_NUMBER, text, w.text, s, t);
    case Text(utf8) =>
      AtomPrefixFree(TAG_TEXT, utf8, w.utf8, s, t);
    case Array(values) =>
      assert Encode(v) + s == [TAG_ARRAY] + BigEndian(|values|) + (EncodeAll(values) + s);
      assert Encode(w) + t == [TAG_ARRAY] + BigEndian(|w.values|) + (EncodeAll(w.values) + t);
      HeaderPrefixFree(TAG_ARRAY, |values|, |w.values|, EncodeAll(values) + s, EncodeAll(w.values) + t);
      AllPrefixFree(values, w.values, s, t);
    case Object(members) =>
      ObjectPrefixFree(v, w, s, t);
  }

  lemma {:induction false} AllPrefixFree(vs: seq<Json>, ws: seq<Json>, s: Bytes, t: Bytes)
    requires |vs| == |ws| && EncodeAll(vs) + s == EncodeAll(ws) + t
    requires (forall v :: v in vs ==> WellFormed(v)) && (forall w :: w in ws ==> WellFormed(w))
    ensures s == t && forall i :: 0 <= i < |vs| ==> Equivalent(vs[i], ws[i])
    decreases vs, 0, |vs|
  {
    hide Encode, WellFormed, Equivalent;
    if vs != [] {
      assert EncodeAll(vs) + s == Encode(vs[0]) + (EncodeAll(vs[1..]) + s);
      assert EncodeAll(ws) + t == Encode(ws[0]) + (EncodeAll(ws[1..]) + t);
      PrefixFree(vs[0], ws[0], EncodeAll(vs[1..]) + s, EncodeAll(ws[1..]) + t);
      AllPrefixFree(vs[1..], ws[1..], s, t);
      forall i | 0 <= i < |vs| ensures Equivalent(vs[i], ws[i]) {
        if i > 0 { assert vs[i] == vs[1..][i - 1] && ws[i] == ws[1..][i - 1]; }
      }
    } else {
      assert s == EncodeAll(vs) + s && t == EncodeAll(ws) + t;
    }
  }

  lemma {:induction false} MembersPrefixFree(v: Json, w: Json, ms: seq<Member>, ns: seq<Member>, s: Bytes, t: Bytes)
    requires v.Object? && w.Object? && |ms| == |ns|
    requires (forall m :: m in ms ==> m in v.members) && (forall n :: n in ns ==> n in w.members)
    requires (forall m :: m in ms ==> |m.key| < LIMIT && WellFormed(m.value))
    requires (forall n :: n in ns ==> |n.key| < LIMIT && WellFormed(n.value))
    requires EncodeMembers(v, ms) + s == EncodeMembers(w, ns) + t
    ensures s == t && forall i :: 0 <= i < |ms| ==> ms[i].key == ns[i].key && Equivalent(ms[i].value, ns[i].value)
    decreases v, 0, |ms|
  {
    hide Encode, WellFormed, Equivalent, Atom;
    if ms != [] {
      var m, n := ms[0], ns[0];
      assert m in v.members;
      var s', t' := EncodeMembers(v, ms[1..]) + s, EncodeMembers(w, ns[1..]) + t;
      assert EncodeMembers(v, ms) + s == Atom(TAG_KEY, m.key) + (Encode(m.value) + s');
      assert EncodeMembers(w, ns) + t == Atom(TAG_KEY, n.key) + (Encode(n.value) + t');
      AtomPrefixFree(TAG_KEY, m.key, n.key, Encode(m.value) + s', Encode(n.value) + t');
      PrefixFree(m.value, n.value, s', t');
      MembersPrefixFree(v, w, ms[1..], ns[1..], s, t);
      forall i | 0 <= i < |ms| ensures ms[i].key == ns[i].key && Equivalent(ms[i].value, ns[i].value) {
        if i > 0 { assert ms[i] == ms[1..][i - 1] && ns[i] == ns[1..][i - 1]; }
      }
    } else {
      assert s == EncodeMembers(v, ms) + s && t == EncodeMembers(w, ns) + t;
    }
  }

  lemma {:induction false} ObjectPrefixFree(v: Json, w: Json, s: Bytes, t: Bytes)
    requires v.Object? && w.Object? && WellFormed(v) && WellFormed(w) && Encode(v) + s == Encode(w) + t
    ensures Equivalent(v, w) && s == t
    decreases v, 0, |v.members| + 1
  {
    hide BigEndian, Sort, Encode;
    var ms, ns := Sort(v.members), Sort(w.members);
    ObjectEncoding(v);
    ObjectEncoding(w);
    var x, y := EncodeMembers(v, ms) + s, EncodeMembers(w, ns) + t;
    assert Encode(v) + s == [TAG_OBJECT] + BigEndian(|v.members|) + x;
    assert Encode(w) + t == [TAG_OBJECT] + BigEndian(|w.members|) + y;
    HeaderPrefixFree(TAG_OBJECT, |v.members|, |w.members|, x, y);
    MembersPrefixFree(v, w, ms, ns, s, t);
    forall m | m in v.members ensures exists n :: n in w.members && n.key == m.key && Equivalent(m.value, n.value) {
      var i :| 0 <= i < |ms| && ms[i] == m;
      assert ns[i] in ns;
    }
  }

  // --------------------------------------------------------------- converse

  /** Two ascending lists over the same keys have the same keys in the same places. */
  lemma {:induction false} AscendingAligned(ms: seq<Member>, ns: seq<Member>)
    requires |ms| == |ns| && Ascending(ms) && Ascending(ns)
    requires forall m :: m in ms ==> exists n :: n in ns && n.key == m.key
    ensures forall i :: 0 <= i < |ms| ==> ms[i].key == ns[i].key
  {
    if ms != [] {
      FirstAligned(ms, ns);
      forall m | m in ms[1..] ensures exists n :: n in ns[1..] && n.key == m.key {
        var i :| 0 <= i < |ms[1..]| && ms[1..][i] == m;
        assert ms[i + 1] == m && m in ms;
        BeforeTotal(ms[0].key, m.key);
        var n :| n in ns && n.key == m.key;
        assert n != ns[0];
        assert n in ns[1..];
      }
      AscendingAligned(ms[1..], ns[1..]);
      forall i | 0 <= i < |ms| ensures ms[i].key == ns[i].key {
        if i > 0 { assert ms[1..][i - 1].key == ns[1..][i - 1].key; }
      }
    }
  }

  /** Counting: if the first keys differed, one list would have to be longer. */
  lemma FirstAligned(ms: seq<Member>, ns: seq<Member>)
    requires ms != [] && |ms| == |ns| && Ascending(ms) && Ascending(ns)
    requires forall m :: m in ms ==> exists n :: n in ns && n.key == m.key
    ensures ms[0].key == ns[0].key
  {
    KeysDistinct(ms);
    KeysDistinct(ns);
    var a, b := Keys(ms), Keys(ns);
    forall k | k in a ensures k in b {
      var m :| m in ms && m.key == k;
    }
    SubsetSame(a, b);
    assert ns[0].key in a;
    var m :| m in ms && m.key == ns[0].key;
    var i :| 0 <= i < |ms| && ms[i] == m;
    assert ms[0] in ms;
    var n :| n in ns && n.key == ms[0].key;
    var j :| 0 <= j < |ns| && ns[j] == n;
    BeforeTotal(ms[0].key, ns[0].key);
  }

  function Keys(ms: seq<Member>): set<Bytes> { set m | m in ms :: m.key }

  lemma {:induction false} KeysDistinct(ms: seq<Member>)
    requires Ascending(ms)
    ensures |Keys(ms)| == |ms|
  {
    if ms != [] {
      KeysDistinct(ms[1..]);
      FirstKeyAlone(ms);
      assert ms == [ms[0]] + ms[1..];
      assert Keys(ms) == {ms[0].key} + Keys(ms[1..]);
    }
  }

  lemma FirstKeyAlone(ms: seq<Member>)
    requires ms != [] && Ascending(ms)
    ensures ms[0].key !in Keys(ms[1..])
  {
    forall m | m in ms[1..] ensures m.key != ms[0].key {
      var i :| 0 <= i < |ms[1..]| && ms[1..][i] == m;
      assert ms[i + 1] == m;
      BeforeTotal(ms[0].key, m.key);
    }
  }

  lemma SubsetSame(a: set<Bytes>, b: set<Bytes>)
    requires a <= b && |a| == |b|
    ensures a == b
  {
    assert b == a + (b - a);
    assert |b - a| == 0;
    assert b - a == {};
  }

  lemma {:induction false} SameAll(vs: seq<Json>, ws: seq<Json>)
    requires |vs| == |ws| && forall i :: 0 <= i < |vs| ==> Equivalent(vs[i], ws[i])
    requires (forall v :: v in vs ==> WellFormed(v)) && (forall w :: w in ws ==> WellFormed(w))
    ensures EncodeAll(vs) == EncodeAll(ws)
    decreases vs, 0, |vs|
  {
    hide Encode, WellFormed, Equivalent;
    if vs != [] {
      SameEncoding(vs[0], ws[0]);
      assert forall i :: 0 <= i < |vs| - 1 ==> vs[1..][i] == vs[i + 1] && ws[1..][i] == ws[i + 1];
      SameAll(vs[1..], ws[1..]);
    }
  }

  lemma {:induction false} SameMembers(v: Json, w: Json, ms: seq<Member>, ns: seq<Member>)
    requires v.Object? && w.Object? && |ms| == |ns|
    requires (forall m :: m in ms ==> m in v.members) && (forall n :: n in ns ==> n in w.members)
    requires (forall m :: m in ms ==> WellFormed(m.value)) && (forall n :: n in ns ==> WellFormed(n.value))
    requires forall i :: 0 <= i < |ms| ==> ms[i].key == ns[i].key && Equivalent(ms[i].value, ns[i].value)
    ensures EncodeMembers(v, ms) == EncodeMembers(w, ns)
    decreases v, 0, |ms|
  {
    hide Encode, WellFormed, Equivalent, Atom;
    if ms != [] {
      assert ms[0] in v.members;
      SameEncoding(ms[0].value, ns[0].value);
      assert forall i :: 0 <= i < |ms| - 1 ==> ms[1..][i] == ms[i + 1] && ns[1..][i] == ns[i + 1];
      SameMembers(v, w, ms[1..], ns[1..]);
    }
  }

  /** The member that answers to another one, where keys are distinct. */
  lemma SameMember(w: Json, m: Member, n: Member)
    requires w.Object? && DistinctKeys(w.members) && n in w.members && n.key == m.key
    requires exists c :: c in w.members && c.key == m.key && Equivalent(m.value, c.value)
    ensures Equivalent(m.value, n.value)
  {
    hide Equivalent;
    var c :| c in w.members && c.key == m.key && Equivalent(m.value, c.value);
    var i :| 0 <= i < |w.members| && w.members[i] == c;
    var j :| 0 <= j < |w.members| && w.members[j] == n;
    assert i == j;
  }

  lemma {:induction false} SameObject(v: Json, w: Json)
    requires v.Object? && w.Object? && WellFormed(v) && WellFormed(w) && Equivalent(v, w)
    ensures Encode(v) == Encode(w)
    decreases v, 0, |v.members| + 1
  {
    hide BigEndian, Sort, Encode;
    var ms, ns := Sort(v.members), Sort(w.members);
    ObjectEncoding(v);
    ObjectEncoding(w);
    SortAscends(v.members);
    SortAscends(w.members);
    forall m | m in ms ensures exists n :: n in ns && n.key == m.key {
      var n :| n in w.members && n.key == m.key && Equivalent(m.value, n.value);
      assert n in ns;
    }
    AscendingAligned(ms, ns);
    forall i | 0 <= i < |ms| ensures ms[i].key == ns[i].key && Equivalent(ms[i].value, ns[i].value) {
      assert ms[i] in ms && ns[i] in ns;
      SameMember(w, ms[i], ns[i]);
    }
    SameMembers(v, w, ms, ns);
  }

  lemma {:induction false} SameEncoding(v: Json, w: Json)
    requires WellFormed(v) && WellFormed(w) && Equivalent(v, w)
    ensures Encode(v) == Encode(w)
    decreases v, 1, 0
  {
    hide BigEndian, Sort;
    match v
    case Array(values) => SameAll(values, w.values);
    case Object(members) => SameObject(v, w);
    case _ =>
  }

  /** Two payloads hash the same bytes exactly when they are equal up to key order. */
  lemma EncodingExact(v: Json, w: Json)
    requires WellFormed(v) && WellFormed(w)
    ensures Encode(v) == Encode(w) <==> Equivalent(v, w)
  {
    hide Encode, Equivalent, WellFormed;
    if Encode(v) == Encode(w) { PrefixFree(v, w, [], []); }
    if Equivalent(v, w) { SameEncoding(v, w); }
  }

  // ----------------------------------------------------------- the hasher

  /** A hash function seen through what it is fed. */
  class Hasher {
    var fed: Bytes

    constructor ()
      ensures fed == []
    {
      fed := [];
    }

    method Update(bytes: Bytes)
      modifies this
      ensures fed == old(fed) + bytes
    {
      fed := fed + bytes;
    }
  }

  method HashJsonAtom(tag: Byte, bytes: Bytes, hasher: Hasher)
    modifies hasher
    ensures hasher.fed == old(hasher.fed) + Atom(tag, bytes)
  {
    hide BigEndian;
    hasher.Update([tag]);
    hasher.Update(BigEndian(|bytes|));
    hasher.Update(bytes);
  }

  method HashJsonValue(v: Json, hasher: Hasher)
    modifies hasher
    ensures hasher.fed == old(hasher.fed) + Encode(v)
    decreases v
  {
    hide BigEndian, Sort, Atom;
    ghost var start := hasher.fed;
    match v
    case Null => hasher.Update([TAG_NULL]);
    case Bool(truth) => hasher.Update([TAG_BOOL, if truth then ONE else ZERO]);
    case Number(text) => HashJsonAtom(TAG_NUMBER, text, hasher);
    case Text(utf8) => HashJsonAtom(TAG_TEXT, utf8, hasher);
    case Array(values) =>
      hasher.Update([TAG_ARRAY]);
      hasher.Update(BigEndian(|values|));
      HashAll(values, hasher);
      Regroup(start, [TAG_ARRAY], BigEndian(|values|), EncodeAll(values));
    case Object(members) =>
      ObjectEncoding(v);
      hasher.Update([TAG_OBJECT]);
      hasher.Update(BigEndian(|members|));
      var sorted := Sort(members);
      HashMembers(v, sorted, hasher);
      Regroup(start, [TAG_OBJECT], BigEndian(|members|), EncodeMembers(v, sorted));
  }

  lemma Regroup(a: Bytes, b: Bytes, c: Bytes, d: Bytes)
    ensures a + b + c + d == a + (b + c + d)
  {
  }

  method HashAll(values: seq<Json>, hasher: Hasher)
    modifies hasher
    ensures hasher.fed == old(hasher.fed) + EncodeAll(values)
    decreases values, 0
  {
    hide Encode;
    ghost var start := hasher.fed;
    assert values[0..] == values;
    for i := 0 to |values|
      invariant hasher.fed + EncodeAll(values[i..]) == start + EncodeAll(values)
    {
      assert values[i..][0] == values[i] && values[i..][1..] == values[i + 1..];
      ghost var fed, rest := hasher.fed, EncodeAll(values[i + 1..]);
      assert fed + EncodeAll(values[i..]) == fed + Encode(values[i]) + rest;
      HashJsonValue(values[i], hasher);
    }
    assert values[|values|..] == [];
  }

  method HashMembers(ghost v: Json, ms: seq<Member>, hasher: Hasher)
    requires v.Object? && forall m :: m in ms ==> m in v.members
    modifies hasher
    ensures hasher.fed == old(hasher.fed) + EncodeMembers(v, ms)
    decreases v, 0
  {
    hide Encode, Atom;
    ghost var start := hasher.fed;
    assert ms[0..] == ms;
    for i := 0 to |ms|
      invariant forall m :: m in ms[i..] ==> m in v.members
      invariant hasher.fed + EncodeMembers(v, ms[i..]) == start + EncodeMembers(v, ms)
    {
      assert ms[i..][0] == ms[i] && ms[i..][1..] == ms[i + 1..] && ms[i] in v.members;
      ghost var fed, rest := hasher.fed, EncodeMembers(v, ms[i + 1..]);
      assert fed + EncodeMembers(v, ms[i..]) == fed + Atom(TAG_KEY, ms[i].key) + Encode(ms[i].value) + rest;
      HashJsonAtom(TAG_KEY, ms[i].key, hasher);
      HashJsonValue(ms[i].value, hasher);
    }
    assert ms[|ms|..] == [];
  }

  /** The bytes a payload is hashed over. */
  method CanonicalBytes(v: Json) returns (bytes: Bytes)
    ensures bytes == Encode(v)
    ensures WellFormed(v) ==> forall w :: WellFormed(w) ==> (Encode(w) == bytes <==> Equivalent(v, w))
  {
    hide Encode, WellFormed, Equivalent;
    var hasher := new Hasher();
    HashJsonValue(v, hasher);
    bytes := hasher.fed;
    if WellFormed(v) {
      forall w | WellFormed(w) ensures Encode(w) == bytes <==> Equivalent(v, w) { EncodingExact(v, w); }
    }
  }
}
