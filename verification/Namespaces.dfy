/**
 Length-prefixed namespaces and the prefixed view of a store they give:
 the encoding, the "+1 with carry" bound of a prefix, and ranges over it.
 */
module Namespaces {
  import opened Bytes
  import opened Overlay

  const MAX_NAMESPACE := 0xFFFF

  /** A namespace the encoder accepts; it panics on longer ones. */
  predicate Encodable(ns: bytes) { |ns| <= MAX_NAMESPACE }

  predicate AllEncodable(nss: seq<bytes>) { forall i :: 0 <= i < |nss| ==> Encodable(nss[i]) }

  function EncodeLength(ns: bytes): (r: bytes)
    requires Encodable(ns)
    ensures |r| == 2 && (r[0] as int) * 256 + (r[1] as int) == |ns|
  {
    [|ns| / 256, |ns| % 256]
  }

  function LengthPrefixed(ns: bytes): (r: bytes)
    requires Encodable(ns)
    ensures |r| == |ns| + 2
  {
    EncodeLength(ns) + ns
  }

  function Nested(nss: seq<bytes>): bytes
    requires AllEncodable(nss)
  {
    if nss == [] then [] else LengthPrefixed(nss[0]) + Nested(nss[1..])
  }

  method ToLengthPrefixedNested(nss: seq<bytes>) returns (out: bytes)
    requires AllEncodable(nss)
    ensures out == Nested(nss)
  {
    out := [];
    var i := 0;
    while i < |nss|
      invariant 0 <= i <= |nss|
      invariant out + Nested(nss[i..]) == Nested(nss)
    {
      assert nss[i..][1..] == nss[i + 1..];
      assert out + (LengthPrefixed(nss[i]) + Nested(nss[i + 1..]))
          == out + EncodeLength(nss[i]) + nss[i] + Nested(nss[i + 1..]);
      out := out + EncodeLength(nss[i]);
      out := out + nss[i];
      i := i + 1;
    }
    assert nss[i..] == [];
  }

  // ---- Prefix-freeness ----

  /** A length-prefixed name can be read back off the front of a key. */
  lemma LengthPrefixedUnique(a: bytes, b: bytes, x: bytes, y: bytes)
    requires Encodable(a) && Encodable(b)
    requires LengthPrefixed(a) + x == LengthPrefixed(b) + y
    ensures a == b && x == y
  {
    var k, j := LengthPrefixed(a) + x, LengthPrefixed(b) + y;
    assert k[0] == EncodeLength(a)[0] && k[1] == EncodeLength(a)[1];
    assert j[0] == EncodeLength(b)[0] && j[1] == EncodeLength(b)[1];
    assert a == k[2..2 + |a|] && b == j[2..2 + |b|];
    assert x == k[2 + |a|..] && y == j[2 + |b|..];
  }

  /** A key that begins with an encoded name has that name first. */
  lemma FirstNameIs(x: bytes, y: bytes, rest: bytes)
    requires Encodable(x) && Encodable(y) && LengthPrefixed(x) <= LengthPrefixed(y) + rest
    ensures x == y && (LengthPrefixed(y) + rest)[|LengthPrefixed(x)|..] == rest
  {
    var head, k := LengthPrefixed(x), LengthPrefixed(y) + rest;
    var below := k[|head|..];
    assert head + below == k;
    LengthPrefixedUnique(x, y, below, rest);
  }

  lemma SameHead(h: bytes, x: bytes, y: bytes)
    ensures h <= h + x && (h + x <= h + y <==> x <= y)
  {
    assert (h + x)[|h|..] == x && (h + y)[|h|..] == y;
    if h + x <= h + y { assert y[..|x|] == (h + y)[|h|..|h + x|] == (h + x)[|h|..]; }
  }

  /** One nested prefix extends another exactly when its list of names does. */
  lemma {:induction false} NestedPrefixIff(a: seq<bytes>, b: seq<bytes>)
    requires AllEncodable(a) && AllEncodable(b)
    ensures Nested(a) <= Nested(b) <==> a <= b
  {
    if a == [] {
    } else if b == [] {
      assert |Nested(a)| >= 2;
    } else {
      var head, x, y := LengthPrefixed(a[0]), Nested(a[1..]), Nested(b[1..]);
      assert a == [a[0]] + a[1..] && b == [b[0]] + b[1..];
      if a[0] == b[0] {
        NestedPrefixIff(a[1..], b[1..]);
        SameHead(head, x, y);
      } else if Nested(a) <= Nested(b) {
        SameHead(head, x, x);
        FirstNameIs(a[0], b[0], y);
      }
    }
  }

  /** Keys under equally deep prefixes coincide only in the same namespace. */
  lemma {:induction false} NestedUnique(a: seq<bytes>, b: seq<bytes>, x: bytes, y: bytes)
    requires AllEncodable(a) && AllEncodable(b) && |a| == |b|
    requires Nested(a) + x == Nested(b) + y
    ensures a == b && x == y
  {
    if a == [] {
      assert Nested(a) + x == x && Nested(b) + y == y;
    } else {
      assert Nested(a) + x == LengthPrefixed(a[0]) + (Nested(a[1..]) + x);
      assert Nested(b) + y == LengthPrefixed(b[0]) + (Nested(b[1..]) + y);
      LengthPrefixedUnique(a[0], b[0], Nested(a[1..]) + x, Nested(b[1..]) + y);
      NestedUnique(a[1..], b[1..], x, y);
      assert a == [a[0]] + a[1..] && b == [b[0]] + b[1..];
    }
  }

  // ---- The upper bound of a prefix ----

  predicate AllFF(s: bytes) { forall i :: 0 <= i < |s| ==> s[i] == 255 }

  function Zeros(n: nat): (s: bytes)
    ensures |s| == n && forall i :: 0 <= i < n ==> s[i] == 0
  {
    seq(n, _ => 0)
  }

  /** The index of the byte the carry stops at. */
  function CarryPoint(p: bytes): (i: nat)
    requires !AllFF(p)
    ensures i < |p| && p[i] != 255 && AllFF(p[i + 1..])
  {
    if AllFF(p[1..]) then 0
    else
      var i := CarryPoint(p[1..]);
      assert p[1..][i + 1..] == p[i + 2..];
      i + 1
  }

  /** `p` read as a big-endian number, plus one, in as many bytes. */
  function UpperBound(p: bytes): (r: bytes)
    ensures |r| == |p|
  {
    if AllFF(p) then Zeros(|p|)
    else if AllFF(p[1..]) then [p[0] + 1] + Zeros(|p| - 1)
    else [p[0]] + UpperBound(p[1..])
  }

  /** The carry clears the 255s after the byte it stops at, and nothing before it. */
  lemma {:induction false} UpperBoundAt(p: bytes, i: nat)
    requires i < |p| && p[i] != 255 && AllFF(p[i + 1..])
    ensures !AllFF(p) && CarryPoint(p) == i
    ensures UpperBound(p) == p[..i] + [p[i] + 1] + Zeros(|p| - i - 1)
  {
    var t := p[1..];
    if i == 0 {
      assert UpperBound(p) == [p[0] + 1] + Zeros(|p| - 1);
    } else {
      assert t[i - 1] == p[i] && t[i..] == p[i + 1..];
      UpperBoundAt(t, i - 1);
      assert p[..i] == [p[0]] + t[..i - 1];
    }
  }

  /** Zeroes trailing 255s in place and increments the first byte that is not one. */
  method NamespaceUpperBound(input: bytes) returns (copy: array<byte>)
    ensures fresh(copy) && copy[..] == UpperBound(input)
  {
    copy := new byte[|input|](i requires 0 <= i < |input| => input[i]);
    var i := |input|;
    while i > 0
      invariant 0 <= i <= |input| && copy.Length == |input|
      invariant AllFF(input[i..])
      invariant copy[..] == input[..i] + Zeros(|input| - i)
    {
      i := i - 1;
      if copy[i] == 255 {
        copy[i] := 0;
        assert forall j :: i < j < |input| ==> input[j] == input[i + 1..][j - i - 1];
      } else {
        copy[i] := copy[i] + 1;
        UpperBoundAt(input, i);
        return;
      }
    }
    assert input[0..] == input;
  }

  /** Keys shorter than the prefix that still fall below its upper bound:
      the carried bytes and some, not all, of the zeros after them. */
  predicate ShortInside(p: bytes, k: bytes)
    requires !AllFF(p)
  {
    CarryPoint(p) < |k| < |p| && k == UpperBound(p)[..|k|]
  }

  lemma ShortStep(p: bytes, k: bytes)
    requires !AllFF(p) && !AllFF(p[1..])
    ensures ShortInside(p, k) <==> k != [] && k[0] == p[0] && ShortInside(p[1..], k[1..])
  {
    var u := UpperBound(p[1..]);
    assert UpperBound(p) == [p[0]] + u;
    if 0 < |k| < |p| {
      assert ([p[0]] + u)[..|k|] == [p[0]] + u[..|k| - 1];
      assert k == [k[0]] + k[1..];
    }
  }

  lemma NotAllFFUnder(head: bytes, tail: bytes)
    requires !AllFF(tail)
    ensures !AllFF(head + tail)
  {
    var i :| 0 <= i < |tail| && tail[i] != 255;
    assert (head + tail)[|head| + i] == tail[i];
  }

  lemma PrefixCons(head: bytes, k: bytes)
    requires head != [] && k != []
    ensures head <= k <==> head[0] == k[0] && head[1..] <= k[1..]
    ensures head <= k ==> k[1..][|head| - 1..] == k[|head|..]
  {
    assert k == [k[0]] + k[1..] && head == [head[0]] + head[1..];
  }

  lemma {:induction false} ShortUnder(head: bytes, tail: bytes, k: bytes)
    requires !AllFF(tail)
    ensures !AllFF(head + tail)
    ensures ShortInside(head + tail, k) <==> head <= k && ShortInside(tail, k[|head|..])
  {
    var p := head + tail;
    NotAllFFUnder(head, tail);
    if head == [] {
      assert p == tail && k[0..] == k;
    } else {
      assert p[1..] == head[1..] + tail;
      NotAllFFUnder(head[1..], tail);
      ShortStep(p, k);
      if k != [] {
        ShortUnder(head[1..], tail, k[1..]);
        PrefixCons(head, k);
      }
    }
  }

  lemma {:induction false} AtLeastAllFF(p: bytes, k: bytes)
    requires AllFF(p)
    ensures !Less(k, p) <==> p <= k
  {
    if p != [] && k != [] { AtLeastAllFF(p[1..], k[1..]); }
  }

  lemma {:induction false} BelowZeros(k: bytes, n: nat)
    ensures Less(k, Zeros(n)) <==> |k| < n && k == Zeros(|k|)
  {
    if n > 0 && k != [] {
      assert Zeros(n)[1..] == Zeros(n - 1);
      BelowZeros(k[1..], n - 1);
      assert k == [k[0]] + k[1..];
      assert Zeros(|k|)[1..] == Zeros(|k| - 1);
    }
  }

  /** What the bounds `[p, p + 1)` let through: the keys under `p`, and the
      short ones. */
  lemma {:induction false} UpperBoundExact(p: bytes, k: bytes)
    requires !AllFF(p)
    ensures !Less(k, p) && Less(k, UpperBound(p)) <==> p <= k || ShortInside(p, k)
  {
    if k != [] {
      assert k == [k[0]] + k[1..];
      assert p <= k <==> p[0] == k[0] && p[1..] <= k[1..];
      if AllFF(p[1..]) {
        AtLeastAllFF(p[1..], k[1..]);
        BelowZeros(k[1..], |p| - 1);
        assert |k| < |p| ==> UpperBound(p)[..|k|] == [p[0] + 1] + Zeros(|k| - 1);
      } else {
        UpperBoundExact(p[1..], k[1..]);
        ShortStep(p, k);
      }
    }
  }

  /** A prefix of 255s wraps round to zeros, which bounds nothing. */
  lemma AllFFBoundsNothing(p: bytes, k: bytes)
    requires AllFF(p)
    ensures !(!Less(k, p) && Less(k, UpperBound(p)))
  {
    AtLeastAllFF(p, k);
    BelowZeros(k, |p|);
  }

  /** Exactly one namespace per store encodes to 255s only. */
  lemma AllFFNamespace(ns: bytes)
    requires Encodable(ns)
    ensures AllFF(LengthPrefixed(ns)) <==> |ns| == MAX_NAMESPACE && AllFF(ns)
  {
    var p := LengthPrefixed(ns);
    assert p[0] == EncodeLength(ns)[0] && p[1] == EncodeLength(ns)[1];
    assert forall i :: 0 <= i < |ns| ==> ns[i] == p[i + 2];
    assert forall i :: 2 <= i < |p| ==> p[i] == ns[i - 2];
  }

  // ---- The prefixed view of a store ----

  /** The entries under a prefix, keyed by what follows it. */
  function Sub<V>(m: map<bytes, V>, p: bytes): map<bytes, V> {
    map s | s in (set k | k in m && p <= k :: k[|p|..]) && p + s in m :: m[p + s]
  }

  lemma SubKeys<V>(m: map<bytes, V>, p: bytes, s: bytes)
    ensures s in Sub(m, p) <==> p + s in m
    ensures p + s in m ==> Sub(m, p)[s] == m[p + s]
  {
    assert (p + s)[|p|..] == s;
  }

  lemma SubExt<V>(m: map<bytes, V>, n: map<bytes, V>, p: bytes, q: map<bytes, V>)
    requires forall s :: s in q <==> p + s in n
    requires forall s :: s in q ==> q[s] == n[p + s]
    ensures Sub(n, p) == q
  {
    forall s ensures s in Sub(n, p) <==> s in q { SubKeys(n, p, s); }
    forall s | s in q ensures Sub(n, p)[s] == q[s] { SubKeys(n, p, s); }
  }

  /** A write under a prefix is the same write in its view. */
  lemma SubApply<V>(m: map<bytes, V>, p: bytes, op: Op<V>, full: Op<V>)
    requires full == match op case Set(k, v) => Op.Set(p + k, v) case Delete(k) => Op.Delete(p + k)
    ensures Sub(Apply(full, m), p) == Apply(op, Sub(m, p))
  {
    forall s ensures s in Sub(m, p) <==> p + s in m { SubKeys(m, p, s); }
    forall s | p + s in m ensures Sub(m, p)[s] == m[p + s] { SubKeys(m, p, s); }
    forall s ensures p + s == p + op.key <==> s == op.key {
      assert (p + s)[|p|..] == s && (p + op.key)[|p|..] == op.key;
    }
    SubExt(m, Apply(full, m), p, Apply(op, Sub(m, p)));
  }

  /** A write outside a prefix leaves its view alone. */
  lemma SubFrame<V>(m: map<bytes, V>, p: bytes, op: Op<V>)
    requires !(p <= op.key)
    ensures Sub(Apply(op, m), p) == Sub(m, p)
  {
    forall s ensures s in Sub(m, p) <==> p + s in m { SubKeys(m, p, s); }
    forall s | p + s in m ensures Sub(m, p)[s] == m[p + s] { SubKeys(m, p, s); }
    SubExt(m, Apply(op, m), p, Sub(m, p));
  }

  lemma RestOf(q: bytes, k: bytes) returns (rest: bytes)
    requires q <= k
    ensures k == q + rest
  {
    rest := k[|q|..];
  }

  lemma OtherNamespace(a: seq<bytes>, b: seq<bytes>, key: bytes)
    requires AllEncodable(a) && AllEncodable(b) && |a| == |b| && a != b
    ensures !(Nested(b) <= Nested(a) + key)
  {
    var q, k := Nested(b), Nested(a) + key;
    if q <= k {
      var rest := RestOf(q, k);
      NestedUnique(a, b, key, rest);
    }
  }

  /** Storage isolation: a write in one namespace never shows in another of
      the same depth. */
  lemma NamespaceIsolation<V>(m: map<bytes, V>, a: seq<bytes>, b: seq<bytes>, op: Op<V>, key: bytes)
    requires AllEncodable(a) && AllEncodable(b) && |a| == |b| && a != b
    requires op.key == Nested(a) + key
    ensures Sub(Apply(op, m), Nested(b)) == Sub(m, Nested(b))
  {
    OtherNamespace(a, b, key);
    SubFrame(m, Nested(b), op);
  }

  // ---- Ranges under a prefix ----

  /** Bounds that both start with a prefix let nothing else through. */
  lemma {:induction false} BetweenPrefixed(p: bytes, s: bytes, e: bytes, k: bytes)
    ensures !Less(k, p + s) && Less(k, p + e) <==> p <= k && !Less(k[|p|..], s) && Less(k[|p|..], e)
  {
    if p == [] {
      assert p + s == s && p + e == e && k[|p|..] == k;
    } else if k != [] {
      assert (p + s)[1..] == p[1..] + s && (p + e)[1..] == p[1..] + e;
      BetweenPrefixed(p[1..], s, e, k[1..]);
      assert k == [k[0]] + k[1..];
      assert p <= k <==> p[0] == k[0] && p[1..] <= k[1..];
      assert p <= k ==> k[1..][|p[1..]|..] == k[|p|..];
    }
  }

  function RangeStart(p: bytes, start: Option<bytes>): bytes {
    if start.Some? then p + start.value else p
  }

  function RangeEnd(p: bytes, end: Option<bytes>): bytes {
    if end.Some? then p + end.value else UpperBound(p)
  }

  /** The keys the translated bounds let through. */
  lemma RangeKeys(p: bytes, start: Option<bytes>, end: Option<bytes>, k: bytes)
    ensures InBounds(k, Some(RangeStart(p, start)), Some(RangeEnd(p, end))) <==>
            !(end.None? && AllFF(p))
            && ((p <= k && InBounds(k[|p|..], start, end)) || (end.None? && ShortInside(p, k)))
  {
    var s := if start.Some? then start.value else [];
    assert p + s == RangeStart(p, start);
    if end.Some? {
      BetweenPrefixed(p, s, end.value, k);
    } else if AllFF(p) {
      AllFFBoundsNothing(p, k);
      PrefixIsLeast(p, s, k);
    } else {
      UpperBoundExact(p, k);
      PrefixIsLeast(p, s, k);
      if p <= k {
        assert k == p + k[|p|..];
        LessCancelPrefix(p, k[|p|..], s);
      } else if ShortInside(p, k) {
        ShortAbove(p, s, k);
      }
    }
  }

  lemma {:induction false} PrefixIsLeast(p: bytes, s: bytes, k: bytes)
    ensures !Less(k, p + s) ==> !Less(k, p)
  {
    if p != [] && k != [] {
      assert (p + s)[1..] == p[1..] + s;
      PrefixIsLeast(p[1..], s, k[1..]);
    }
  }

  lemma {:induction false} ShortAbove(p: bytes, s: bytes, k: bytes)
    requires !AllFF(p) && ShortInside(p, k)
    ensures !Less(k, p + s)
  {
    assert (p + s)[1..] == p[1..] + s;
    if !AllFF(p[1..]) {
      ShortStep(p, k);
      ShortAbove(p[1..], s, k[1..]);
    }
  }

  function Trimmed<V>(s: seq<Record<V>>, n: nat): seq<Record<V>>
    requires forall i :: 0 <= i < |s| ==> n <= |s[i].key|
  {
    seq(|s|, i requires 0 <= i < |s| => Record(s[i].key[n..], s[i].value))
  }

  lemma {:induction false} TrimmedMap<V>(s: seq<Record<V>>, p: bytes)
    requires forall i :: 0 <= i < |s| ==> p <= s[i].key
    ensures forall k :: k in ToMap(Trimmed(s, |p|)) <==> p + k in ToMap(s)
    ensures forall k :: p + k in ToMap(s) ==> ToMap(Trimmed(s, |p|))[k] == ToMap(s)[p + k]
  {
    if s != [] {
      TrimmedMap(s[1..], p);
      var t := Trimmed(s, |p|);
      assert t[1..] == Trimmed(s[1..], |p|);
      forall k ensures p + k == s[0].key <==> k == t[0].key {
        assert s[0].key == p + t[0].key;
        assert (p + k)[|p|..] == k && (p + t[0].key)[|p|..] == t[0].key;
      }
    }
  }

  lemma TrimmedSorted<V>(s: seq<Record<V>>, p: bytes, order: Order)
    requires Sorted(s, order) && forall i :: 0 <= i < |s| ==> p <= s[i].key
    ensures Sorted(Trimmed(s, |p|), order)
  {
    var t := Trimmed(s, |p|);
    forall a, b | 0 <= a < b < |t| ensures Before(order, t[a].key, t[b].key) {
      assert s[a].key == p + t[a].key && s[b].key == p + t[b].key;
      LessCancelPrefix(p, t[a].key, t[b].key);
      LessCancelPrefix(p, t[b].key, t[a].key);
    }
  }

  /** Trimming an exact range of prefixed keys gives the exact range of the view. */
  lemma TrimmedRange<V>(s: seq<Record<V>>, m: map<bytes, V>, p: bytes,
                        start: Option<bytes>, end: Option<bytes>, order: Order)
    requires IsRange(s, m, Some(RangeStart(p, start)), Some(RangeEnd(p, end)), order)
    requires end.None? ==> !AllFF(p)
    requires forall i :: 0 <= i < |s| ==> p <= s[i].key
    ensures IsRange(Trimmed(s, |p|), Sub(m, p), start, end, order)
  {
    TrimmedSorted(s, p, order);
    TrimmedMap(s, p);
    var t := ToMap(Trimmed(s, |p|));
    var w := Within(Sub(m, p), start, end);
    forall k ensures k in t <==> k in w {
      SubKeys(m, p, k);
      RangeKeys(p, start, end, p + k);
      assert (p + k)[|p|..] == k;
    }
    forall k | k in w ensures t[k] == w[k] {
      SubKeys(m, p, k);
    }
  }

  /** Which keys of an exact range of translated bounds are too short to trim. */
  lemma RangeShorts<V>(s: seq<Record<V>>, m: map<bytes, V>, p: bytes,
                       start: Option<bytes>, end: Option<bytes>, order: Order)
    requires IsRange(s, m, Some(RangeStart(p, start)), Some(RangeEnd(p, end)), order)
    ensures end.None? && AllFF(p) ==> s == []
    ensures forall i :: 0 <= i < |s| ==>
      (p <= s[i].key || |s[i].key| < |p|)
      && (|s[i].key| < |p| ==> s[i].key in m && end.None? && !AllFF(p) && ShortInside(p, s[i].key))
    ensures end.None? && !AllFF(p) ==>
      forall k :: k in m && ShortInside(p, k) ==> exists i :: 0 <= i < |s| && s[i].key == k
  {
    ToMapKeys(s);
    assert s != [] ==> s[0].key in ToMap(s);
    var from, to := RangeStart(p, start), RangeEnd(p, end);
    forall i | 0 <= i < |s|
      ensures s[i].key in m && !(end.None? && AllFF(p))
      ensures p <= s[i].key || (end.None? && ShortInside(p, s[i].key))
    {
      assert s[i].key in Within(m, Some(from), Some(to));
      RangeKeys(p, start, end, s[i].key);
    }
    if end.None? && !AllFF(p) {
      forall k | k in m && ShortInside(p, k) ensures exists i :: 0 <= i < |s| && s[i].key == k {
        RangeKeys(p, start, end, k);
        assert k in ToMap(s);
      }
    }
  }

  /** A nonempty path of names that is not a proper prefix of `a`. */
  ghost predicate Apart(a: seq<bytes>, b: seq<bytes>) { b != [] && !(b < a) }

  /** A prefix's last name is not the one that encodes to 255s only. */
  ghost predicate Bounded(a: seq<bytes>)
    requires AllEncodable(a)
  {
    a != [] && !AllFF(LengthPrefixed(a[|a| - 1]))
  }

  lemma ApartBelow(a: seq<bytes>, b: seq<bytes>)
    requires |a| > 1 && Apart(a, b) && a[0] == b[0]
    ensures Apart(a[1..], b[1..])
  {
    assert a == [a[0]] + a[1..] && b == [b[0]] + b[1..];
  }

  lemma SplitName(b: seq<bytes>, rest: bytes)
    requires AllEncodable(b) && b != []
    ensures Nested(b) + rest == LengthPrefixed(b[0]) + (Nested(b[1..]) + rest)
  {
    assert Nested(b) == LengthPrefixed(b[0]) + Nested(b[1..]);
  }

  /** A key that starts with a complete path of names, whatever its depth, is
      never a short one, unless that path breaks off inside the prefix. */
  lemma {:induction false} CompleteKeysAreNotShort(a: seq<bytes>, b: seq<bytes>, rest: bytes)
    requires AllEncodable(a) && AllEncodable(b) && Bounded(a) && Apart(a, b)
    ensures !AllFF(Nested(a)) && !ShortInside(Nested(a), Nested(b) + rest)
  {
    var below := Nested(b[1..]) + rest;
    SplitName(b, rest);
    if |a| == 1 {
      assert Nested(a) == LengthPrefixed(a[0]);
      OneNameIsNotShort(a[0], b[0], below);
    } else {
      CompleteKeysAreNotShort(a[1..], a[1..], []);
      ShortUnder(LengthPrefixed(a[0]), Nested(a[1..]), LengthPrefixed(b[0]) + below);
      if LengthPrefixed(a[0]) <= LengthPrefixed(b[0]) + below {
        FirstNameIs(a[0], b[0], below);
        ApartBelow(a, b);
        CompleteKeysAreNotShort(a[1..], b[1..], rest);
      }
    }
  }

  /** Every key starts with such a path, as every key of an application does. */
  ghost predicate CompleteFor<V>(m: map<bytes, V>, a: seq<bytes>) {
    forall k :: k in m ==> exists b: seq<bytes>, rest :: AllEncodable(b) && Apart(a, b) && k == Nested(b) + rest
  }

  lemma CompleteStoresHaveNoShorts<V>(m: map<bytes, V>, a: seq<bytes>)
    requires AllEncodable(a) && Bounded(a) && CompleteFor(m, a)
    ensures !AllFF(Nested(a)) && forall k :: k in m ==> !ShortInside(Nested(a), k)
  {
    CompleteKeysAreNotShort(a, a, []);
    forall k | k in m ensures !ShortInside(Nested(a), k) {
      var b: seq<bytes>, rest :| AllEncodable(b) && Apart(a, b) && k == Nested(b) + rest;
      CompleteKeysAreNotShort(a, b, rest);
    }
  }

  lemma OneNameIsNotShort(a: bytes, b: bytes, rest: bytes)
    requires Encodable(a) && Encodable(b) && !AllFF(LengthPrefixed(a))
    ensures !ShortInside(LengthPrefixed(a), LengthPrefixed(b) + rest)
  {
    var p, k := LengthPrefixed(a), LengthPrefixed(b) + rest;
    var ub, i := UpperBound(p), CarryPoint(p);
    assert k[0] == EncodeLength(b)[0] && k[1] == EncodeLength(b)[1];
    assert p[0] == EncodeLength(a)[0] && p[1] == EncodeLength(a)[1];
    assert i == 0 ==> p[i + 1..][0] == p[1] == 255;
    UpperBoundAt(p, i);
    assert (ub[0] as int) * 256 + (ub[1] as int) >= |a|;
    assert |k| <= |ub| && k == ub[..|k|] ==> k[0] == ub[0] && k[1] == ub[1];
  }

  /** With that last name a range can trip: below a name and 65535 bytes of 255
      lies the complete, shorter key of the next name. */
  lemma UnboundedNamesTrip(x: bytes, last: bytes)
    requires Encodable(x) && x != [] && x[|x| - 1] < 255 && |last| == MAX_NAMESPACE && AllFF(last)
    ensures var y := x[|x| - 1 := x[|x| - 1] + 1];
      !AllFF(Nested([x, last])) && ShortInside(Nested([x, last]), Nested([y])) && Apart([x, last], [y])
  {
    var y := x[|x| - 1 := x[|x| - 1] + 1];
    var head, tail := LengthPrefixed(x), LengthPrefixed(last);
    AllFFNamespace(last);
    var none: seq<bytes> := [];
    assert [x, last][1..] == [last] && [last][1..] == none && [y][1..] == none;
    assert Nested([last]) == tail && Nested([x, last]) == head + tail && Nested([y]) == LengthPrefixed(y);
    var p, i := head + tail, |head| - 1;
    assert p[i] == x[|x| - 1] && p[i + 1..] == tail;
    UpperBoundAt(p, i);
    assert UpperBound(p)[..|head|] == p[..i] + [p[i] + 1];
    assert LengthPrefixed(y) == p[..i] + [p[i] + 1];
    assert [y][0] != [x, last][0];
  }

  /** The iterator's `trim` on every key; `None` when one is too short for it. */
  method TrimRecords<V>(s: seq<Record<V>>, n: nat) returns (out: Option<seq<Record<V>>>)
    ensures out.None? <==> exists i :: 0 <= i < |s| && |s[i].key| < n
    ensures out.Some? ==> out.value == Trimmed(s, n)
  {
    var trimmed: seq<Record<V>> := [];
    var i := 0;
    while i < |s|
      invariant 0 <= i <= |s|
      invariant forall j :: 0 <= j < i ==> n <= |s[j].key|
      invariant trimmed == Trimmed(s[..i], n)
    {
      if |s[i].key| < n {
        return None;
      }
      trimmed := trimmed + [Record(s[i].key[n..], s[i].value)];
      i := i + 1;
    }
    assert s[..i] == s;
    out := Some(trimmed);
  }

  /** A store seen through a prefix. */
  class PrefixedStorage<V> {
    const storage: StorageStack<V>
    const prefix: bytes

    constructor (storage: StorageStack<V>, ns: bytes)
      requires Encodable(ns)
      ensures this.storage == storage && prefix == Nested([ns])
    {
      assert Nested([ns][1..]) == [];
      this.storage, this.prefix := storage, LengthPrefixed(ns);
    }

    constructor Multilevel(storage: StorageStack<V>, nss: seq<bytes>)
      requires AllEncodable(nss)
      ensures this.storage == storage && prefix == Nested(nss)
    {
      var p := ToLengthPrefixedNested(nss);
      this.storage, this.prefix := storage, p;
    }

    ghost function View(): map<bytes, V> reads storage {
      Sub(storage.View(), prefix)
    }

    method Get(key: bytes) returns (value: Option<V>)
      requires storage.Valid()
      ensures value == if key in View() then Some(View()[key]) else None
    {
      SubKeys(storage.View(), prefix, key);
      value := storage.Get(prefix + key);
    }

    /** A write changes this view as asked and no view whose prefix the key lacks. */
    method Set(key: bytes, value: V)
      requires storage.Valid()
      modifies storage
      ensures storage.Valid() && View() == old(View())[key := value]
      ensures storage.View() == old(storage.View())[prefix + key := value]
      ensures |storage.layers| == old(|storage.layers|) && storage.Below() == old(storage.Below())
      ensures storage.layers != [] ==> storage.root == old(storage.root)
      ensures forall q :: !(q <= prefix + key) ==> Sub(storage.View(), q) == old(Sub(storage.View(), q))
    {
      var op := Op.Set(prefix + key, value);
      SubApply(storage.View(), prefix, Op.Set(key, value), op);
      forall q | !(q <= prefix + key) ensures Sub(Apply(op, storage.View()), q) == Sub(storage.View(), q) {
        SubFrame(storage.View(), q, op);
      }
      storage.Set(prefix + key, value);
    }

    method Remove(key: bytes)
      requires storage.Valid()
      modifies storage
      ensures storage.Valid() && View() == old(View()) - {key}
      ensures storage.View() == old(storage.View()) - {prefix + key}
      ensures |storage.layers| == old(|storage.layers|) && storage.Below() == old(storage.Below())
      ensures storage.layers != [] ==> storage.root == old(storage.root)
      ensures forall q :: !(q <= prefix + key) ==> Sub(storage.View(), q) == old(Sub(storage.View(), q))
    {
      var op: Op<V> := Op.Delete(prefix + key);
      SubApply(storage.View(), prefix, Op.Delete(key), op);
      forall q | !(q <= prefix + key) ensures Sub(Apply(op, storage.View()), q) == Sub(storage.View(), q) {
        SubFrame(storage.View(), q, op);
      }
      storage.Remove(prefix + key);
    }

    /** `range_with_prefix`; `None` when trimming a key shorter than the prefix
        panics, which an open end over such a key does and nothing else. */
    method Range(start: Option<bytes>, end: Option<bytes>, order: Order)
      returns (out: Option<seq<Record<V>>>)
      requires storage.Valid()
      ensures end.None? && AllFF(prefix) ==> out == Some([])
      ensures out.None? <==> end.None? && !AllFF(prefix) && exists k :: k in storage.View() && ShortInside(prefix, k)
      ensures out.Some? && !(end.None? && AllFF(prefix)) ==> IsRange(out.value, View(), start, end, order)
      ensures forall a :: AllEncodable(a) && Bounded(a) && prefix == Nested(a) && CompleteFor(storage.View(), a) ==>
        out.Some? && IsRange(out.value, View(), start, end, order)
    {
      var to: bytes;
      if end.Some? {
        to := prefix + end.value;
      } else {
        var bound := NamespaceUpperBound(prefix);
        to := bound[..];
      }
      var from := if start.Some? then prefix + start.value else prefix;
      var base := storage.Range(Some(from), Some(to), order);
      ghost var m := storage.View();
      RangeShorts(base, m, prefix, start, end, order);
      out := TrimRecords(base, |prefix|);
      if out.Some? && !(end.None? && AllFF(prefix)) {
        TrimmedRange(base, m, prefix, start, end, order);
      }
      forall a | AllEncodable(a) && Bounded(a) && prefix == Nested(a) && CompleteFor(m, a)
        ensures !AllFF(prefix) && out.Some?
      {
        CompleteStoresHaveNoShorts(m, a);
      }
    }
  }
}
