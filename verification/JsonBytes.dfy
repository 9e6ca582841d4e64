/** The encoding of a JSON value, byte by byte (crates/stateful-core/src/resource.rs). */
module JsonBytes {
  import opened CanonicalJson

  /** The number that bytes stand for, the first being the most significant. */
  function NumberOf(bytes: Bytes): nat {
    if bytes == [] then 0 else 256 * NumberOf(bytes[..|bytes| - 1]) + bytes[|bytes| - 1]
  }

  lemma {:induction false} BytesStandFor(n: nat, k: nat)
    requires n < Power(k)
    ensures NumberOf(BytesOf(n, k)) == n
  {
    if k > 0 {
      BytesStandFor(n / 256, k - 1);
      assert BytesOf(n, k)[..k - 1] == BytesOf(n / 256, k - 1);
    }
  }

  lemma BigEndianMeans(n: nat)
    requires n < LIMIT
    ensures NumberOf(BigEndian(n)) == n && |BigEndian(n)| == 8
  {
    hide BytesOf, NumberOf;
    assert Power(4) == 0x1_0000_0000;
    assert Power(8) == LIMIT;
    BytesStandFor(n, 8);
  }

  function Letter(c: char): Byte
    requires c as int < 256
  {
    c as int
  }

  /** The bytes of each kind of value, spelled out. */
  lemma BytesSpelled(v: Json)
    ensures v.Null? ==> Encode(v) == [Letter('n')]
    ensures v.Bool? ==> Encode(v) == [Letter('b'), Letter(if v.truth then '1' else '0')]
    ensures v.Number? ==> Encode(v) == [Letter('d')] + BigEndian(|v.text|) + v.text
    ensures v.Text? ==> Encode(v) == [Letter('s')] + BigEndian(|v.utf8|) + v.utf8
    ensures v == Array([]) ==> Encode(v) == [Letter('a')] + BigEndian(0)
    ensures v == Object([]) ==> Encode(v) == [Letter('o')] + BigEndian(0)
  {
    hide BigEndian;
    if v == Object([]) {
      ObjectEncoding(v);
      assert Sort(v.members) == [];
    }
  }

  lemma {:induction false} InOrder(vs: seq<Json>, w: Json)
    ensures EncodeAll(vs + [w]) == EncodeAll(vs) + Encode(w)
  {
    if vs == [] {
      assert vs + [w] == [w] && [w][1..] == [];
    } else {
      assert (vs + [w])[1..] == vs[1..] + [w];
      InOrder(vs[1..], w);
    }
  }

  /** The elements of an array follow its length in their order. */
  lemma ArraySpelled(vs: seq<Json>, w: Json)
    ensures Encode(Array(vs))[..9] == [Letter('a')] + BigEndian(|vs|)
    ensures Encode(Array(vs + [w])) == [Letter('a')] + BigEndian(|vs| + 1) + Encode(Array(vs))[9..] + Encode(w)
  {
    hide BigEndian;
    InOrder(vs, w);
    var header := [Letter('a')] + BigEndian(|vs|);
    assert Encode(Array(vs)) == header + EncodeAll(vs) && |header| == 9;
    assert Encode(Array(vs))[9..] == EncodeAll(vs);
  }

  /** The members of an object follow its size by ascending key, each key before its value. */
  lemma {:induction false} ObjectSpelled(v: Json, ms: seq<Member>)
    requires v.Object? && DistinctKeys(v.members) && ms == Sort(v.members)
    ensures Ascending(ms) && multiset(ms) == multiset(v.members)
    ensures exists parts: seq<Bytes> ::
              && |parts| == |ms| && Encode(v) == [Letter('o')] + BigEndian(|ms|) + Joined(parts)
              && forall i :: 0 <= i < |ms| ==>
                   parts[i] == [Letter('k')] + BigEndian(|ms[i].key|) + ms[i].key + Encode(ms[i].value)
  {
    hide BigEndian, Sort, Encode, Ascending;
    SortAscends(v.members);
    ObjectEncoding(v);
    var parts := seq(|ms|, i requires 0 <= i < |ms| => Atom(TAG_KEY, ms[i].key) + Encode(ms[i].value));
    MembersJoined(v, ms, parts);
  }

  function Joined(parts: seq<Bytes>): Bytes { if parts == [] then [] else parts[0] + Joined(parts[1..]) }

  lemma {:induction false} MembersJoined(v: Json, ms: seq<Member>, parts: seq<Bytes>)
    requires v.Object? && (forall m :: m in ms ==> m in v.members) && |parts| == |ms|
    requires forall i :: 0 <= i < |ms| ==> parts[i] == Atom(TAG_KEY, ms[i].key) + Encode(ms[i].value)
    ensures EncodeMembers(v, ms) == Joined(parts)
    decreases |ms|
  {
    hide Atom, Encode;
    if ms != [] { MembersJoined(v, ms[1..], parts[1..]); }
  }
}
