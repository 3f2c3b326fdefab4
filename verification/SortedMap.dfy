/** Signed maps: sorting a string map and the byte string that is hashed and signed
    (configclient/sortedmap/map.go). */
module SortedMap {
  import opened Bytes

  datatype Pair = Pair(k: Bytes, v: Bytes)

  type StringMap = map<Bytes, Bytes>

  // --- sorting

  predicate Ascending(so: seq<Pair>) {
    forall i, j :: 0 <= i < j < |so| ==> Less(so[i].k, so[j].k)
  }

  /** The list has exactly the pairs of the map, by ascending key. */
  ghost predicate Represents(so: seq<Pair>, sm: StringMap) {
    && Ascending(so)
    && (forall i :: 0 <= i < |so| ==> so[i].k in sm && sm[so[i].k] == so[i].v)
    && (forall k :: k in sm ==> Pair(k, sm[k]) in so)
  }

  lemma {:induction false} FirstsAgree(s: seq<Pair>, t: seq<Pair>, sm: StringMap)
    requires Represents(s, sm) && Represents(t, sm) && s != [] && t != []
    ensures s[0] == t[0]
  {
    assert s[0] in t && t[0] in s;
    var i, j :| 0 <= i < |t| && 0 <= j < |s| && t[i] == s[0] && s[j] == t[0];
    LessTrichotomy(s[0].k, t[0].k);
  }

  lemma SameEmpty(s: seq<Pair>, t: seq<Pair>, sm: StringMap)
    requires Represents(s, sm) && Represents(t, sm)
    ensures s != [] ==> t != []
  {
    if s != [] {
      assert Pair(s[0].k, sm[s[0].k]) in t;
    }
  }

  /** There is only one such list, whatever sorting algorithm and whatever order of iteration. */
  lemma {:induction false} SortedIsUnique(s: seq<Pair>, t: seq<Pair>, sm: StringMap)
    requires Represents(s, sm) && Represents(t, sm)
    ensures s == t
    decreases |s|
  {
    SameEmpty(s, t, sm);
    SameEmpty(t, s, sm);
    if s != [] {
      FirstsAgree(s, t, sm);
      WithoutFirst(s, sm);
      WithoutFirst(t, sm);
      SortedIsUnique(s[1..], t[1..], sm - {s[0].k});
      assert s == [s[0]] + s[1..] && t == [t[0]] + t[1..];
    }
  }

  lemma WithoutFirst(s: seq<Pair>, sm: StringMap)
    requires Represents(s, sm) && s != []
    ensures Represents(s[1..], sm - {s[0].k})
  {
    var rest, sm' := s[1..], sm - {s[0].k};
    forall i | 0 <= i < |rest| ensures rest[i].k in sm' && sm'[rest[i].k] == rest[i].v {
      assert rest[i] == s[i + 1];
      LessTrichotomy(s[0].k, s[i + 1].k);
    }
    forall k | k in sm' ensures Pair(k, sm'[k]) in rest {
      assert Pair(k, sm[k]) in s;
      assert s == [s[0]] + rest;
    }
  }

  /** Sort: fills the list in the order in which the map is iterated and sorts it by key. */
  method Sort(sm: StringMap, order: seq<Bytes>) returns (r: seq<Pair>)
    requires (forall i, j :: 0 <= i < j < |order| ==> order[i] != order[j]) && (set k | k in order) == sm.Keys
    ensures Represents(r, sm)
  {
    r := [];
    ghost var seen: StringMap := map[];
    for i := 0 to |order|
      invariant Represents(r, seen)
      invariant seen.Keys == set k | k in order[..i]
      invariant forall k :: k in seen ==> k in sm && seen[k] == sm[k]
    {
      assert order[i] in (set k | k in order);
      var e := Pair(order[i], sm[order[i]]);
      assert order[i] !in seen;
      r := Insert(r, e, seen);
      seen := seen[e.k := e.v];
      assert order[..i + 1] == order[..i] + [order[i]];
    }
    assert order[..|order|] == order;
    assert seen == sm;
  }

  /** One step of sorting: the element moves down to its place. */
  method Insert(so: seq<Pair>, e: Pair, ghost sm: StringMap) returns (r: seq<Pair>)
    requires Represents(so, sm) && e.k !in sm
    ensures Represents(r, sm[e.k := e.v])
  {
    hide Less;
    var i := |so|;
    while i > 0 && Less(e.k, so[i - 1].k)
      invariant 0 <= i <= |so|
      invariant forall j :: i <= j < |so| ==> Less(e.k, so[j].k)
    {
      i := i - 1;
    }
    forall j | 0 <= j < i ensures Less(so[j].k, e.k) {
      LessTrichotomy(e.k, so[i - 1].k);
      if j < i - 1 {
        LessTransitive(so[j].k, so[i - 1].k, e.k);
      }
    }
    r := Inserted(so, e, i);
    InsertedRepresents(so, e, sm, i);
  }

  /** Where the elements are after inserting e at i. */
  function Inserted(so: seq<Pair>, e: Pair, i: nat): (r: seq<Pair>)
    requires i <= |so|
    ensures |r| == |so| + 1
    ensures forall j :: 0 <= j < |r| ==> r[j] == if j < i then so[j] else if j == i then e else so[j - 1]
  {
    so[..i] + [e] + so[i..]
  }

  lemma InsertedAscends(so: seq<Pair>, e: Pair, i: nat)
    requires Ascending(so) && i <= |so|
    requires forall j :: 0 <= j < i ==> Less(so[j].k, e.k)
    requires forall j :: i <= j < |so| ==> Less(e.k, so[j].k)
    ensures Ascending(Inserted(so, e, i))
  {
    hide Less;
    var r := Inserted(so, e, i);
    forall x, y | 0 <= x < y < |r| ensures Less(r[x].k, r[y].k) {
    }
  }

  lemma InsertedHas(so: seq<Pair>, e: Pair, i: nat, p: Pair)
    requires i <= |so| && (p == e || p in so)
    ensures p in Inserted(so, e, i)
  {
    var r := Inserted(so, e, i);
    if p == e {
      assert r[i] == p;
    } else {
      var j :| 0 <= j < |so| && so[j] == p;
      assert r[if j < i then j else j + 1] == p;
    }
  }

  lemma InsertedRepresents(so: seq<Pair>, e: Pair, sm: StringMap, i: nat)
    requires Represents(so, sm) && e.k !in sm && i <= |so|
    requires forall j :: 0 <= j < i ==> Less(so[j].k, e.k)
    requires forall j :: i <= j < |so| ==> Less(e.k, so[j].k)
    ensures Represents(Inserted(so, e, i), sm[e.k := e.v])
  {
    hide Less, Ascending;
    var sm' := sm[e.k := e.v];
    InsertedAscends(so, e, i);
    forall k | k in sm' ensures Pair(k, sm'[k]) in Inserted(so, e, i) {
      InsertedHas(so, e, i, Pair(k, sm'[k]));
    }
  }

  /** ToMap. */
  method ToMap(so: seq<Pair>) returns (r: StringMap)
    ensures r.Keys == set i | 0 <= i < |so| :: so[i].k
    ensures forall i :: 0 <= i < |so| && (forall j :: i < j < |so| ==> so[j].k != so[i].k) ==> r[so[i].k] == so[i].v
  {
    r := map[];
    for n := 0 to |so|
      invariant r.Keys == set i | 0 <= i < n :: so[i].k
      invariant forall i :: 0 <= i < n && (forall j :: i < j < n ==> so[j].k != so[i].k) ==> r[so[i].k] == so[i].v
    {
      r := r[so[n].k := so[n].v];
    }
  }

  /** Sorting and converting back gives the map again. */
  method SortRoundTrip(sm: StringMap, order: seq<Bytes>) returns (r: StringMap)
    requires (forall i, j :: 0 <= i < j < |order| ==> order[i] != order[j]) && (set k | k in order) == sm.Keys
    ensures r == sm
  {
    var so := Sort(sm, order);
    r := ToMap(so);
    forall k | k in sm ensures k in r && r[k] == sm[k] {
      var i :| 0 <= i < |so| && so[i] == Pair(k, sm[k]);
      forall j | i < j < |so| ensures so[j].k != so[i].k {
        LessTrichotomy(so[i].k, so[j].k);
      }
    }
  }

  // --- the image

  const TWO64 := 0x1_0000_0000_0000_0000

  function LenByte(d: Bytes): (r: Bytes)
    ensures |r| == 8 + |d|
  {
    BigEndian(|d| % TWO64, 8) + d
  }

  function PairBytes(p: Pair): (r: Bytes)
    ensures |r| >= 16
  {
    LenByte(p.k) + LenByte(p.v)
  }

  function Items(so: seq<Pair>): Bytes {
    if so == [] then [] else PairBytes(so[0]) + Items(so[1..])
  }

  /** The bytes hashed by Image. */
  function ImageBytes(so: seq<Pair>): Bytes {
    Items(so) + BigEndian(|Items(so)| % TWO64, 8)
  }

  lemma {:induction false} ItemsAppend(s: seq<Pair>, t: seq<Pair>)
    ensures Items(s + t) == Items(s) + Items(t)
    decreases |s|
  {
    hide PairBytes;
    if s == [] {
      assert s + t == t;
    } else {
      ItemsAppend(s[1..], t);
      assert (s + t)[1..] == s[1..] + t;
      assert PairBytes(s[0]) + (Items(s[1..]) + Items(t)) == (PairBytes(s[0]) + Items(s[1..])) + Items(t);
    }
  }

  lemma ItemsGrow(so: seq<Pair>, i: nat)
    requires i < |so|
    ensures Items(so[..i + 1]) == Items(so[..i]) + LenByte(so[i].k) + LenByte(so[i].v)
  {
    hide LenByte;
    ItemsAppend(so[..i], [so[i]]);
    assert so[..i + 1] == so[..i] + [so[i]];
    assert Items([so[i]]) == PairBytes(so[i]) + Items([]);
    assert Items(so[..i]) + (LenByte(so[i].k) + LenByte(so[i].v)) ==
           Items(so[..i]) + LenByte(so[i].k) + LenByte(so[i].v);
  }

  /** Image: writes both strings of every pair, each with its length, and the total length. */
  method Image(sha512: Bytes -> Bytes, so: seq<Pair>) returns (r: Bytes)
    ensures r == sha512(ImageBytes(so))
  {
    hide LenByte, BigEndian;
    var h: Bytes := [];
    var length := 0;
    for i := 0 to |so|
      invariant h == Items(so[..i]) && length == |h|
    {
      var d1, d2 := LenByte(so[i].k), LenByte(so[i].v);
      length := length + |d1| + |d2|;
      ItemsGrow(so, i);
      h := h + d1;
      h := h + d2;
    }
    assert so[..|so|] == so;
    h := h + BigEndian(length % TWO64, 8);
    r := sha512(h);
  }

  /** Where pair i starts: every string takes eight bytes more than its length. */
  function Offset(so: seq<Pair>, i: nat): nat
    requires i <= |so|
  {
    if i == 0 then 0 else Offset(so, i - 1) + 8 + |so[i - 1].k| + 8 + |so[i - 1].v|
  }

  lemma {:induction false} ItemsSize(so: seq<Pair>, i: nat)
    requires i <= |so|
    ensures |Items(so[..i])| == Offset(so, i)
  {
    if i > 0 {
      ItemsSize(so, i - 1);
      ItemsGrow(so, i - 1);
    }
  }

  /** The bytes at that place in the list. */
  predicate Holds(b: Bytes, at: nat, x: Bytes) {
    at + |x| <= |b| && b[at..at + |x|] == x
  }

  /** A length in eight bytes, high bytes first. */
  function Length(n: nat): (b: Bytes)
    ensures |b| == 8
  {
    BigEndian(n % 0x1_0000_0000_0000_0000, 8)
  }

  lemma LengthFirst(d: Bytes)
    ensures LenByte(d) == Length(|d|) + d
  {
    hide BigEndian;
  }

  /** The image: each key and each value after its length, one pair after the other, ... */
  lemma ImageLayout(so: seq<Pair>, i: nat)
    requires i < |so|
    ensures var b, at, p := ImageBytes(so), Offset(so, i), so[i];
            && Holds(b, at, Length(|p.k|)) && Holds(b, at + 8, p.k)
            && Holds(b, at + 8 + |p.k|, Length(|p.v|)) && Holds(b, at + 16 + |p.k|, p.v)
  {
    hide ImageBytes, Items, Length, LenByte, Holds;
    var z := ImageAround(so, i);
    ItemsSize(so, i);
    LengthFirst(so[i].k);
    LengthFirst(so[i].v);
    Pieces(Items(so[..i]), Length(|so[i].k|), so[i].k, Length(|so[i].v|), so[i].v, z);
  }

  lemma ImageAround(so: seq<Pair>, i: nat) returns (z: Bytes)
    requires i < |so|
    ensures ImageBytes(so) == Items(so[..i]) + LenByte(so[i].k) + LenByte(so[i].v) + z
  {
    hide LenByte, BigEndian;
    ItemsAppend(so[..i + 1], so[i + 1..]);
    assert so == so[..i + 1] + so[i + 1..];
    ItemsGrow(so, i);
    z := Items(so[i + 1..]) + BigEndian(|Items(so)| % TWO64, 8);
  }

  lemma Pieces(f: Bytes, x: Bytes, k: Bytes, y: Bytes, v: Bytes, z: Bytes)
    ensures var b := f + (x + k) + (y + v) + z;
            && Holds(b, |f|, x) && Holds(b, |f| + |x|, k)
            && Holds(b, |f| + |x| + |k|, y) && Holds(b, |f| + |x| + |k| + |y|, v)
  {
  }

  /** ... and at the end the length of all that. */
  lemma ImageEnds(so: seq<Pair>)
    ensures var b, n := ImageBytes(so), Offset(so, |so|);
            |b| == n + 8 && Holds(b, n, Length(n))
  {
    hide BigEndian;
    ItemsSize(so, |so|);
    assert so[..|so|] == so;
  }

  /** Strings have lengths that fit 64 bits. */
  predicate Addressable(so: seq<Pair>) {
    forall i :: 0 <= i < |so| ==> |so[i].k| < TWO64 && |so[i].v| < TWO64
  }

  lemma Pow256Eight()
    ensures Pow256(8) == TWO64
  {
    assert Pow256(4) == 256 * Pow256(3) == 65536 * Pow256(2) == 16777216 * Pow256(1);
    assert Pow256(8) == 256 * Pow256(7) == 65536 * Pow256(6) == 16777216 * Pow256(5);
  }

  lemma LenBytePrefix(d: Bytes, x: Bytes, e: Bytes, y: Bytes)
    requires |d| < TWO64 && |e| < TWO64 && LenByte(d) + x == LenByte(e) + y
    ensures d == e && x == y
  {
    hide BigEndian, FromBigEndian;
    Pow256Eight();
    BigEndianRoundTrip(|d|, 8);
    BigEndianRoundTrip(|e|, 8);
    var b := LenByte(d) + x;
    assert b[..8] == BigEndian(|d|, 8);
    assert b[..8] == BigEndian(|e|, 8);
    assert b[8..8 + |d|] == d;
    assert b[8..8 + |e|] == e;
    assert b[8 + |d|..] == x;
    assert b[8 + |e|..] == y;
  }

  lemma PairBytesPrefix(p: Pair, x: Bytes, q: Pair, y: Bytes)
    requires |p.k| < TWO64 && |p.v| < TWO64 && |q.k| < TWO64 && |q.v| < TWO64
    requires PairBytes(p) + x == PairBytes(q) + y
    ensures p == q && x == y
  {
    hide LenByte;
    assert PairBytes(p) + x == LenByte(p.k) + (LenByte(p.v) + x);
    assert PairBytes(q) + y == LenByte(q.k) + (LenByte(q.v) + y);
    LenBytePrefix(p.k, LenByte(p.v) + x, q.k, LenByte(q.v) + y);
    LenBytePrefix(p.v, x, q.v, y);
  }

  lemma {:induction false} ItemsInjective(s: seq<Pair>, t: seq<Pair>)
    requires Addressable(s) && Addressable(t) && Items(s) == Items(t)
    ensures s == t
    decreases |s|
  {
    hide PairBytes;
    if s != [] && t != [] {
      PairBytesPrefix(s[0], Items(s[1..]), t[0], Items(t[1..]));
      ItemsInjective(s[1..], t[1..]);
      assert s == [s[0]] + s[1..] && t == [t[0]] + t[1..];
    }
  }

  /** Two lists, sorted or not, have the same bytes exactly when they are equal. */
  lemma ImageBytesInjective(s: seq<Pair>, t: seq<Pair>)
    requires Addressable(s) && Addressable(t)
    ensures ImageBytes(s) == ImageBytes(t) <==> s == t
  {
    if ImageBytes(s) == ImageBytes(t) {
      var b := ImageBytes(s);
      assert b[..|b| - 8] == Items(s);
      assert b[..|b| - 8] == Items(t);
      ItemsInjective(s, t);
    }
  }

  /** Two maps have the same signed bytes exactly when they are equal, in whatever order each was
      iterated and sorted. */
  lemma ImageIsCanonical(sm: StringMap, tm: StringMap, s: seq<Pair>, t: seq<Pair>)
    requires Represents(s, sm) && Represents(t, tm) && Addressable(s) && Addressable(t)
    ensures ImageBytes(s) == ImageBytes(t) <==> sm == tm
  {
    ImageBytesInjective(s, t);
    if s == t {
      forall k | k in sm ensures k in tm && tm[k] == sm[k] {
        var i :| 0 <= i < |s| && s[i] == Pair(k, sm[k]);
        assert t[i].k in tm;
      }
      forall k | k in tm ensures k in sm {
        var i :| 0 <= i < |t| && t[i] == Pair(k, tm[k]);
        assert s[i].k in sm;
      }
    }
    if sm == tm {
      SortedIsUnique(s, t, sm);
    }
  }
}
