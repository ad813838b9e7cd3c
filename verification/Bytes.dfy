/** Byte strings and the order Rust's `Vec<u8>` compares them by. */
module Bytes {

  type byte = x: int | 0 <= x < 256
  type bytes = seq<byte>

  datatype Option<+T> = None | Some(value: T)

  datatype Order = Ascending | Descending

  /** Lexicographic comparison; a proper prefix comes first. */
  predicate Less(a: bytes, b: bytes) {
    if |b| == 0 then false
    else if |a| == 0 then true
    else a[0] < b[0] || (a[0] == b[0] && Less(a[1..], b[1..]))
  }

  predicate Before(order: Order, a: bytes, b: bytes) {
    if order == Ascending then Less(a, b) else Less(b, a)
  }

  predicate InBounds(k: bytes, start: Option<bytes>, end: Option<bytes>) {
    && (start.Some? ==> !Less(k, start.value))
    && (end.Some? ==> Less(k, end.value))
  }

  /** Alike up to some place, where one ends or the smaller byte stands. */
  ghost predicate DiffersAt(a: bytes, b: bytes, n: nat) {
    && n <= |a| && n < |b| && a[..n] == b[..n]
    && (n == |a| || a[n] < b[n])
  }

  /** What the comparison means. */
  lemma {:induction false} LessMeans(a: bytes, b: bytes)
    ensures Less(a, b) <==> exists n: nat :: DiffersAt(a, b, n)
  {
    if a == [] {
      assert b != [] ==> DiffersAt(a, b, 0);
    } else if b != [] {
      LessMeans(a[1..], b[1..]);
      if a[0] < b[0] { assert DiffersAt(a, b, 0); }
      if a[0] == b[0] && Less(a[1..], b[1..]) {
        var n: nat :| DiffersAt(a[1..], b[1..], n);
        assert a[..n + 1] == [a[0]] + a[1..][..n] && b[..n + 1] == [b[0]] + b[1..][..n];
        assert DiffersAt(a, b, n + 1);
      }
      if n: nat :| DiffersAt(a, b, n) && n > 0 {
        assert a[0] == a[..n][0] == b[..n][0] == b[0];
        assert a[1..][..n - 1] == a[..n][1..] && b[1..][..n - 1] == b[..n][1..];
        assert DiffersAt(a[1..], b[1..], n - 1);
      }
    }
  }

  lemma LessIrreflexive(a: bytes)
    ensures !Less(a, a)
  {
    if |a| > 0 { LessIrreflexive(a[1..]); }
  }

  lemma {:induction false} LessTransitive(a: bytes, b: bytes, c: bytes)
    requires Less(a, b) && Less(b, c)
    ensures Less(a, c)
  {
    if |a| > 0 && a[0] == b[0] == c[0] {
      LessTransitive(a[1..], b[1..], c[1..]);
    }
  }

  lemma {:induction false} LessTotal(a: bytes, b: bytes)
    ensures Less(a, b) || a == b || Less(b, a)
  {
    if |a| > 0 && |b| > 0 && a[0] == b[0] {
      LessTotal(a[1..], b[1..]);
      assert a == [a[0]] + a[1..] && b == [b[0]] + b[1..];
    }
  }

  /** `Less` is a strict total order, in the form the proofs below use it. */
  lemma BeforeOrder(order: Order)
    ensures forall a :: !Before(order, a, a)
    ensures forall a, b :: Before(order, a, b) ==> !Before(order, b, a)
    ensures forall a, b, c :: Before(order, a, b) && Before(order, b, c) ==> Before(order, a, c)
    ensures forall a, b :: Before(order, a, b) || a == b || Before(order, b, a)
  {
    forall a: bytes ensures !Before(order, a, a) { LessIrreflexive(a); }
    forall a: bytes, b: bytes, c: bytes | Before(order, a, b) && Before(order, b, c)
      ensures Before(order, a, c)
    {
      if order == Ascending { LessTransitive(a, b, c); } else { LessTransitive(c, b, a); }
    }
    forall a: bytes, b: bytes ensures Before(order, a, b) || a == b || Before(order, b, a) { LessTotal(a, b); }
  }

  /** Comparing two keys that share a prefix compares what follows it. */
  lemma {:induction false} LessCancelPrefix(p: bytes, a: bytes, b: bytes)
    ensures Less(p + a, p + b) <==> Less(a, b)
  {
    if |p| == 0 {
      assert p + a == a && p + b == b;
    } else {
      assert (p + a)[1..] == p[1..] + a && (p + b)[1..] == p[1..] + b;
      LessCancelPrefix(p[1..], a, b);
    }
  }
}
