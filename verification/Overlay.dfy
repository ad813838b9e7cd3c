/**
 Nested write caches over a key-value store: `StorageTransaction`, its
 operation log and the iterator that merges a cache into the range below it.
 Values are left abstract; keys are byte strings.
 */
module Overlay {
  import opened Bytes

  datatype Record<+T> = Record(key: bytes, value: T)

  /** What a cache holds for a key. */
  datatype Delta<+V> = Put(value: V) | Gone

  /** One logged write. */
  datatype Op<+V> = Set(key: bytes, value: V) | Delete(key: bytes) {
    function ToDelta(): Delta<V> {
      match this
      case Set(_, v) => Put(v)
      case Delete(_) => Gone
    }
  }

  // ---- What logs and caches mean ----

  function Apply<V>(op: Op<V>, m: map<bytes, V>): map<bytes, V> {
    match op
    case Set(k, v) => m[k := v]
    case Delete(k) => m - {k}
  }

  /** The store after applying the log's operations to `m`, first to last. */
  function Replay<V>(log: seq<Op<V>>, m: map<bytes, V>): map<bytes, V> {
    if log == [] then m else Apply(log[|log| - 1], Replay(log[..|log| - 1], m))
  }

  /** The last logged operation per key. */
  function Deltas<V>(log: seq<Op<V>>): map<bytes, Delta<V>> {
    if log == [] then map[]
    else Deltas(log[..|log| - 1])[log[|log| - 1].key := log[|log| - 1].ToDelta()]
  }

  /** `base` seen through a cache. */
  function Override<V>(base: map<bytes, V>, local: map<bytes, Delta<V>>): map<bytes, V> {
    map k | k in base.Keys + local.Keys && (k in local ==> local[k].Put?)
      :: if k in local then local[k].value else base[k]
  }

  lemma DeltasAppend<V>(log: seq<Op<V>>, op: Op<V>)
    ensures Deltas(log + [op]) == Deltas(log)[op.key := op.ToDelta()]
  {
    assert (log + [op])[..|log|] == log;
  }

  lemma OverrideApply<V>(base: map<bytes, V>, local: map<bytes, Delta<V>>, op: Op<V>)
    ensures Override(base, local[op.key := op.ToDelta()]) == Apply(op, Override(base, local))
  {
  }

  /** Replaying a whole log leaves what its last operation per key says. */
  lemma {:induction false} ReplayIsOverride<V>(log: seq<Op<V>>, m: map<bytes, V>)
    ensures Replay(log, m) == Override(m, Deltas(log))
  {
    if log != [] {
      ReplayIsOverride(log[..|log| - 1], m);
    }
  }

  lemma {:induction false} ReplayConcat<V>(a: seq<Op<V>>, b: seq<Op<V>>, m: map<bytes, V>)
    ensures Replay(a + b, m) == Replay(b, Replay(a, m))
  {
    if b == [] {
      assert a + b == a;
    } else {
      assert (a + b)[..|a + b| - 1] == a + b[..|b| - 1];
      ReplayConcat(a, b[..|b| - 1], m);
    }
  }

  // ---- Ranges ----

  ghost predicate Sorted<T>(s: seq<Record<T>>, order: Order) {
    forall a, b :: 0 <= a < b < |s| ==> Before(order, s[a].key, s[b].key)
  }

  function ToMap<T>(s: seq<Record<T>>): map<bytes, T> {
    if s == [] then map[] else ToMap(s[1..])[s[0].key := s[0].value]
  }

  function Within<T>(m: map<bytes, T>, start: Option<bytes>, end: Option<bytes>): map<bytes, T> {
    map k | k in m && InBounds(k, start, end) :: m[k]
  }

  /** `s` is what a range query over `m` must yield: every entry within the
      bounds, each key once, in the requested order. */
  ghost predicate IsRange<T>(s: seq<Record<T>>, m: map<bytes, T>,
                             start: Option<bytes>, end: Option<bytes>, order: Order) {
    Sorted(s, order) && ToMap(s) == Within(m, start, end)
  }

  lemma {:induction false} ToMapKeys<T>(s: seq<Record<T>>)
    ensures forall k :: k in ToMap(s) ==> exists i :: 0 <= i < |s| && s[i].key == k
    ensures forall i :: 0 <= i < |s| ==> s[i].key in ToMap(s)
  {
    if s != [] {
      var t := s[1..];
      ToMapKeys(t);
      forall k | k in ToMap(s) ensures exists i :: 0 <= i < |s| && s[i].key == k {
        if k != s[0].key {
          assert k in ToMap(t);
          var i :| 0 <= i < |t| && t[i].key == k;
          assert s[i + 1].key == k;
        }
      }
      forall i | 0 <= i < |s| ensures s[i].key in ToMap(s) {
        if i > 0 { assert s[i] == t[i - 1]; }
      }
    }
  }

  /** The head of a sorted list comes before everything else in it. */
  lemma HeadFirst<T>(s: seq<Record<T>>, order: Order)
    requires Sorted(s, order) && s != []
    ensures Sorted(s[1..], order)
    ensures s[0].key !in ToMap(s[1..])
    ensures forall k :: k in ToMap(s[1..]) ==> Before(order, s[0].key, k)
  {
    var t := s[1..];
    ToMapKeys(t);
    LessIrreflexive(s[0].key);
    forall k | k in ToMap(t) ensures Before(order, s[0].key, k) {
      var i :| 0 <= i < |t| && t[i].key == k;
      assert s[i + 1].key == k;
    }
  }

  lemma {:induction false} SortedEntries<T>(s: seq<Record<T>>, order: Order)
    requires Sorted(s, order)
    ensures forall i :: 0 <= i < |s| ==> s[i].key in ToMap(s) && ToMap(s)[s[i].key] == s[i].value
  {
    if s != [] {
      HeadFirst(s, order);
      SortedEntries(s[1..], order);
      forall i | 0 < i < |s| ensures s[i].key in ToMap(s) && ToMap(s)[s[i].key] == s[i].value {
        assert s[i] == s[1..][i - 1];
      }
    }
  }

  /** Entry by entry: keys rise, or fall when asked to; and an entry is listed exactly
      when the store has it, its key is at or after the start and before the end. */
  lemma RangeMeans<T>(s: seq<Record<T>>, m: map<bytes, T>, start: Option<bytes>, end: Option<bytes>, order: Order)
    requires IsRange(s, m, start, end, order)
    ensures forall i, j :: 0 <= i < j < |s| ==>
      if order.Ascending? then Less(s[i].key, s[j].key) else Less(s[j].key, s[i].key)
    ensures forall k, v :: Record(k, v) in s <==>
      && k in m && m[k] == v
      && (start.Some? ==> start.value == k || Less(start.value, k)) && (end.Some? ==> Less(k, end.value))
  {
    ToMapKeys(s);
    SortedEntries(s, order);
    forall k, v ensures Record(k, v) in s <==> k in ToMap(s) && ToMap(s)[k] == v {
      if k in ToMap(s) && ToMap(s)[k] == v {
        var i :| 0 <= i < |s| && s[i].key == k;
        assert s[i] == Record(k, v);
      }
    }
    forall k ensures start.Some? ==> (!Less(k, start.value) <==> start.value == k || Less(start.value, k)) {
      if start.Some? { NotLess(k, start.value); }
    }
  }

  lemma NotLess(a: bytes, b: bytes)
    ensures !Less(a, b) <==> b == a || Less(b, a)
  {
    LessTotal(a, b);
    LessIrreflexive(a);
    if Less(a, b) && Less(b, a) { LessTransitive(a, b, a); }
  }

  /** A range query has exactly one right answer. */
  lemma {:induction false} RangeUnique<T>(a: seq<Record<T>>, b: seq<Record<T>>, order: Order)
    requires Sorted(a, order) && Sorted(b, order) && ToMap(a) == ToMap(b)
    ensures a == b
  {
    assert b != [] ==> b[0].key in ToMap(b);
    if a != [] {
      assert a[0].key in ToMap(b);
      assert b != [];
      HeadFirst(a, order); HeadFirst(b, order); BeforeOrder(order);
      assert b[0].key in ToMap(a);
      assert a[0].key == b[0].key;
      assert ToMap(a[1..]) == ToMap(a) - {a[0].key};
      assert ToMap(b[1..]) == ToMap(b) - {b[0].key};
      RangeUnique(a[1..], b[1..], order);
      assert a == [a[0]] + a[1..] && b == [b[0]] + b[1..];
    }
  }

  lemma {:induction false} ToMapAppend<T>(s: seq<Record<T>>, x: Record<T>)
    requires x.key !in ToMap(s)
    ensures ToMap(s + [x]) == ToMap(s)[x.key := x.value]
  {
    if s == [] {
      assert s + [x] == [x];
      assert ToMap([x][1..]) == map[];
    } else {
      assert (s + [x])[1..] == s[1..] + [x];
      ToMapAppend(s[1..], x);
    }
  }

  lemma SortedAppend<T>(s: seq<Record<T>>, x: Record<T>, order: Order)
    requires Sorted(s, order)
    requires forall k :: k in ToMap(s) ==> Before(order, k, x.key)
    ensures Sorted(s + [x], order)
  {
    ToMapKeys(s);
  }

  lemma OverrideWithin<V>(base: map<bytes, V>, local: map<bytes, Delta<V>>, start: Option<bytes>, end: Option<bytes>)
    ensures Override(Within(base, start, end), Within(local, start, end)) == Within(Override(base, local), start, end)
  {
  }

  /** An inverted pair of bounds admits no key. */
  lemma InvertedBoundsEmpty(k: bytes, start: bytes, end: bytes)
    requires Less(end, start)
    ensures !InBounds(k, Some(start), Some(end))
  {
    BeforeOrder(Ascending);
    assert Before(Ascending, end, start);
    assert Before(Ascending, k, end) ==> Before(Ascending, k, start);
  }

  /** `s` lists the part of `all` that comes before `rest`. */
  ghost predicate Split<T>(s: seq<Record<T>>, rest: map<bytes, T>, all: map<bytes, T>, order: Order) {
    && Sorted(s, order)
    && (forall k, j :: k in ToMap(s) && j in rest ==> Before(order, k, j))
    && ToMap(s) + rest == all
  }

  lemma SplitNone<T>(all: map<bytes, T>, order: Order)
    ensures Split([], all, all, order)
  {
    assert ToMap<T>([]) + all == all;
  }

  lemma SplitDone<T>(s: seq<Record<T>>, all: map<bytes, T>, order: Order)
    requires Split(s, map[], all, order)
    ensures Sorted(s, order) && ToMap(s) == all
  {
    assert ToMap(s) + map[] == ToMap(s);
  }

  predicate FirstKey(k: bytes, ks: set<bytes>, order: Order) {
    k in ks && forall j :: j in ks ==> j == k || Before(order, k, j)
  }

  ghost predicate IsFirst<T>(x: Record<T>, m: map<bytes, T>, order: Order) {
    FirstKey(x.key, m.Keys, order) && m[x.key] == x.value
  }

  lemma {:induction false} SomeKeyIsFirst(ks: set<bytes>, order: Order) returns (k: bytes)
    requires ks != {}
    ensures FirstKey(k, ks, order)
  {
    BeforeOrder(order);
    var x :| x in ks;
    if ks == {x} {
      k := x;
    } else {
      var y := SomeKeyIsFirst(ks - {x}, order);
      k := if Before(order, x, y) then x else y;
    }
  }

  lemma SplitStep<T>(s: seq<Record<T>>, rest: map<bytes, T>, all: map<bytes, T>, order: Order, x: Record<T>)
    requires Split(s, rest, all, order) && IsFirst(x, rest, order)
    ensures Split(s + [x], rest - {x.key}, all, order)
  {
    BeforeOrder(order);
    ToMapAppend(s, x);
    SortedAppend(s, x, order);
  }

  /** `BTreeMap::range`, in either direction. The library panics on a range
      whose start is past its end, so callers must rule that out. */
  method BTreeRange<T>(m: map<bytes, T>, start: Option<bytes>, end: Option<bytes>, order: Order)
    returns (s: seq<Record<T>>)
    requires !(start.Some? && end.Some? && Less(end.value, start.value))
    ensures IsRange(s, m, start, end, order)
  {
    var rest := Within(m, start, end);
    s := [];
    while rest != map[]
      invariant Split(s, rest, Within(m, start, end), order)
      decreases |rest|
    {
      ghost var first := SomeKeyIsFirst(rest.Keys, order);
      var k :| k in rest && FirstKey(k, rest.Keys, order);
      var x := Record(k, rest[k]);
      SplitStep(s, rest, Within(m, start, end), order, x);
      s := s + [x];
      rest := rest - {x.key};
    }
  }

  /** The guard around `BTreeMap::range`: inverted bounds are an empty range. */
  method LocalRange<T>(m: map<bytes, T>, start: Option<bytes>, end: Option<bytes>, order: Order)
    returns (s: seq<Record<T>>)
    ensures IsRange(s, m, start, end, order)
  {
    if start.Some? && end.Some? && Less(end.value, start.value) {
      forall k ensures !InBounds(k, start, end) { InvertedBoundsEmpty(k, start.value, end.value); }
      s := [];
    } else {
      s := BTreeRange(m, start, end, order);
    }
  }

  lemma OverrideExtra<V>(below: map<bytes, V>, local: map<bytes, Delta<V>>, k: bytes, d: Delta<V>)
    requires k !in below && k !in local
    ensures d.Gone? ==> Override(below, local[k := d]) == Override(below, local)
    ensures d.Put? ==> Override(below, local[k := d]) == Override(below, local)[k := d.value]
  {
  }

  lemma OverrideExtraBelow<V>(below: map<bytes, V>, local: map<bytes, Delta<V>>, k: bytes, v: V)
    requires k !in below && k !in local
    ensures Override(below[k := v], local) == Override(below, local)[k := v]
  {
  }

  lemma AddedFirst<V>(m: map<bytes, V>, x: Record<V>, order: Order)
    requires x.key !in m && forall k :: k in m ==> Before(order, x.key, k)
    ensures IsFirst(x, m[x.key := x.value], order) && m[x.key := x.value] - {x.key} == m
  {
  }

  /** Taking the first cache entry, when it precedes everything below. */
  lemma TakeFirst<V>(left: seq<Record<Delta<V>>>, below: map<bytes, V>, order: Order)
    requires Sorted(left, order) && left != []
    requires forall k :: k in below ==> Before(order, left[0].key, k)
    ensures var was, now := Override(below, ToMap(left)), Override(below, ToMap(left[1..]));
      match left[0].value
      case Put(v) => IsFirst(Record(left[0].key, v), was, order) && now == was - {left[0].key}
      case Gone => now == was
  {
    var x, rest := left[0], ToMap(left[1..]);
    HeadFirst(left, order);
    LessIrreflexive(x.key);
    OverrideExtra(below, rest, x.key, x.value);
    if x.value.Put? {
      AddedFirst(Override(below, rest), Record(x.key, x.value.value), order);
    }
  }

  /** Where both sides hold a key, only the cache's entry counts. */
  lemma MatchFirst<V>(left: seq<Record<Delta<V>>>, right: seq<Record<V>>, order: Order)
    requires Sorted(right, order) && left != [] && right != [] && left[0].key == right[0].key
    ensures Override(ToMap(right), ToMap(left)) == Override(ToMap(right[1..]), ToMap(left))
    ensures forall k :: k in ToMap(right[1..]) ==> Before(order, left[0].key, k)
  {
    HeadFirst(right, order);
    assert left[0].key in ToMap(left);
  }

  /** Taking the first entry from below, when it precedes the whole cache. */
  lemma TakeBelow<V>(left: map<bytes, Delta<V>>, right: seq<Record<V>>, order: Order)
    requires Sorted(right, order) && right != []
    requires forall k :: k in left ==> Before(order, right[0].key, k)
    ensures IsFirst(right[0], Override(ToMap(right), left), order)
    ensures Override(ToMap(right[1..]), left) == Override(ToMap(right), left) - {right[0].key}
  {
    var x, rest := right[0], ToMap(right[1..]);
    HeadFirst(right, order);
    LessIrreflexive(x.key);
    OverrideExtraBelow(rest, left, x.key, x.value);
    AddedFirst(Override(rest, left), x, order);
  }

  /** The cache's entries come after `k` when its first one does. */
  lemma AllAfter<T>(s: seq<Record<T>>, k: bytes, order: Order)
    requires Sorted(s, order) && (s != [] ==> Before(order, k, s[0].key))
    ensures forall j :: j in ToMap(s) ==> Before(order, k, j)
  {
    if s != [] {
      HeadFirst(s, order);
      forall j | j in ToMap(s) ensures Before(order, k, j) {
        if j != s[0].key {
          if order == Ascending { LessTransitive(k, s[0].key, j); } else { LessTransitive(j, s[0].key, k); }
        }
      }
    }
  }

  /** Merges a cache's entries into the range below it, one record at a time. */
  class MergeOverlay<V> {
    const left: seq<Record<Delta<V>>>
    const right: seq<Record<V>>
    const order: Order
    var l: nat
    var r: nat

    ghost predicate Valid() reads this {
      && l <= |left| && r <= |right|
      && Sorted(left[l..], order) && Sorted(right[r..], order)
    }

    /** The records still to come. */
    ghost function Remaining(): map<bytes, V>
      reads this
      requires Valid()
    {
      Override(ToMap(right[r..]), ToMap(left[l..]))
    }

    constructor (left: seq<Record<Delta<V>>>, right: seq<Record<V>>, order: Order)
      requires Sorted(left, order) && Sorted(right, order)
      ensures Valid() && this.order == order
      ensures Remaining() == Override(ToMap(right), ToMap(left))
    {
      this.left, this.right, this.order := left, right, order;
      l, r := 0, 0;
    }

    /** Hands out the first remaining record, in the overlay's order. */
    method Next() returns (item: Option<Record<V>>)
      requires Valid()
      modifies this`l, this`r
      ensures Valid()
      ensures item.None? <==> old(Remaining()) == map[]
      ensures item.None? ==> Remaining() == map[]
      ensures item.Some? ==> IsFirst(item.value, old(Remaining()), order)
      ensures item.Some? ==> Remaining() == old(Remaining()) - {item.value.key}
      decreases |left| - l + |right| - r, 1
    {
      if l < |left| { assert left[l..][1..] == left[l + 1..]; }
      if r < |right| { assert right[r..][1..] == right[r + 1..]; }
      if l < |left| && r < |right| {
        item := PickMatch(left[l].key, right[r].key);
      } else if l < |left| {
        item := TakeLeft();
      } else if r < |right| {
        TakeBelow(ToMap(left[l..]), right[r..], order);
        item := Some(right[r]);
        r := r + 1;
      } else {
        item := None;
      }
    }

    method PickMatch(lkey: bytes, rkey: bytes) returns (item: Option<Record<V>>)
      requires Valid() && l < |left| && r < |right|
      requires lkey == left[l].key && rkey == right[r].key
      modifies this`l, this`r
      ensures Valid()
      ensures item.None? <==> old(Remaining()) == map[]
      ensures item.None? ==> Remaining() == map[]
      ensures item.Some? ==> IsFirst(item.value, old(Remaining()), order)
      ensures item.Some? ==> Remaining() == old(Remaining()) - {item.value.key}
      decreases |left| - l + |right| - r, 0, 1
    {
      assert left[l..][1..] == left[l + 1..] && right[r..][1..] == right[r + 1..];
      if Before(order, lkey, rkey) {
        AllAfter(right[r..], lkey, order);
        item := TakeLeft();
      } else if lkey == rkey {
        MatchFirst(left[l..], right[r..], order);
        r := r + 1;
        item := TakeLeft();
      } else {
        LessTotal(lkey, rkey);
        AllAfter(left[l..], rkey, order);
        TakeBelow(ToMap(left[l..]), right[r..], order);
        item := Some(right[r]);
        r := r + 1;
      }
    }

    /** Takes the next cache entry; a deletion is skipped. */
    method TakeLeft() returns (item: Option<Record<V>>)
      requires Valid() && l < |left|
      requires forall k :: k in ToMap(right[r..]) ==> Before(order, left[l].key, k)
      modifies this`l, this`r
      ensures Valid()
      ensures item.None? <==> old(Remaining()) == map[]
      ensures item.None? ==> Remaining() == map[]
      ensures item.Some? ==> IsFirst(item.value, old(Remaining()), order)
      ensures item.Some? ==> Remaining() == old(Remaining()) - {item.value.key}
      decreases |left| - l + |right| - r, 0, 0
    {
      HeadFirst(left[l..], order); assert left[l..][1..] == left[l + 1..];
      var x := left[l];
      TakeFirst(left[l..], ToMap(right[r..]), order);
      l := l + 1;
      match x.value
      case Put(v) =>
        item := Some(Record(x.key, v));
      case Gone =>
        item := Next();
    }

    /** Everything the iterator yields, in one list. */
    method Drain() returns (s: seq<Record<V>>)
      requires Valid()
      modifies this`l, this`r
      ensures Sorted(s, order) && ToMap(s) == old(Remaining())
    {
      s := [];
      ghost var all, rest := Remaining(), Remaining();
      SplitNone(all, order);
      var item := Next();
      while item.Some?
        invariant Valid()
        invariant item.None? ==> rest == map[]
        invariant item.Some? ==> IsFirst(item.value, rest, order) && Remaining() == rest - {item.value.key}
        invariant Split(s, rest, all, order)
        decreases |rest|
      {
        SplitStep(s, rest, all, order, item.value);
        s := s + [item.value];
        rest := rest - {item.value.key};
        item := Next();
      }
      SplitDone(s, all, order);
    }
  }

  /** One transaction's pending writes. */
  datatype Layer<V> = Layer(local: map<bytes, Delta<V>>, log: seq<Op<V>>)

  /** Every cache holds the last logged operation per key. */
  ghost predicate Logged<V>(layers: seq<Layer<V>>) {
    forall n :: 0 <= n < |layers| ==> layers[n].local == Deltas(layers[n].log)
  }

  /** What a stack of caches shows, topmost last. */
  function ViewOf<V>(root: map<bytes, V>, layers: seq<Layer<V>>): map<bytes, V> {
    if layers == [] then root
    else Override(ViewOf(root, layers[..|layers| - 1]), layers[|layers| - 1].local)
  }

  lemma ViewPush<V>(root: map<bytes, V>, below: seq<Layer<V>>, top: Layer<V>)
    ensures (below + [top])[..|below|] == below
    ensures ViewOf(root, below + [top]) == Override(ViewOf(root, below), top.local)
  {
    assert (below + [top])[..|below|] == below;
  }

  /** Logging and caching a write in the innermost transaction performs it. */
  lemma LogWrite<V>(root: map<bytes, V>, below: seq<Layer<V>>, top: Layer<V>, op: Op<V>)
    ensures var now := Layer(top.local[op.key := op.ToDelta()], top.log + [op]);
      && (top.local == Deltas(top.log) ==> now.local == Deltas(now.log))
      && ViewOf(root, below + [now]) == Apply(op, ViewOf(root, below + [top]))
  {
    var now := Layer(top.local[op.key := op.ToDelta()], top.log + [op]);
    DeltasAppend(top.log, op);
    OverrideApply(ViewOf(root, below), top.local, op);
    ViewPush(root, below, top);
    ViewPush(root, below, now);
  }

  /** The logs of a stack, outermost first. */
  function Logs<V>(layers: seq<Layer<V>>): seq<Op<V>> {
    if layers == [] then [] else Logs(layers[..|layers| - 1]) + layers[|layers| - 1].log
  }

  lemma {:induction false} ViewReplaysLogs<V>(root: map<bytes, V>, layers: seq<Layer<V>>)
    requires Logged(layers)
    ensures ViewOf(root, layers) == Replay(Logs(layers), root)
  {
    if layers != [] {
      var below := layers[..|layers| - 1];
      ViewReplaysLogs(root, below);
      ReplayIsOverride(layers[|layers| - 1].log, ViewOf(root, below));
      ReplayConcat(Logs(below), layers[|layers| - 1].log, root);
    }
  }

  /** A backing store under a stack of transactions. Only the innermost one is
      written, as Rust's borrows enforce. */
  class StorageStack<V> {
    var root: map<bytes, V>
    var layers: seq<Layer<V>>

    ghost predicate Valid() reads this {
      Logged(layers)
    }

    ghost function View(): map<bytes, V> reads this {
      ViewOf(root, layers)
    }

    /** What lies below the innermost transaction. */
    ghost function Below(): seq<Layer<V>> reads this {
      if layers == [] then [] else layers[..|layers| - 1]
    }

    constructor (root: map<bytes, V>)
      ensures Valid() && layers == [] && this.root == root
    {
      this.root := root;
      layers := [];
    }

    /** `StorageTransaction::new` */
    method Begin()
      requires Valid()
      modifies this`layers
      ensures Valid() && View() == old(View())
      ensures |layers| == old(|layers|) + 1 && Below() == old(layers)
    {
      layers := layers + [Layer(map[], [])];
      assert layers[..|layers| - 1] == old(layers);
    }

    method Get(key: bytes) returns (value: Option<V>)
      requires Valid()
      ensures value == if key in View() then Some(View()[key]) else None
    {
      var n := |layers|;
      assert layers[..n] == layers;
      while n > 0
        invariant 0 <= n <= |layers|
        invariant key in View() <==> key in ViewOf(root, layers[..n])
        invariant key in View() ==> View()[key] == ViewOf(root, layers[..n])[key]
      {
        n := n - 1;
        assert layers[..n + 1][..n] == layers[..n];
        if key in layers[n].local {
          match layers[n].local[key]
          case Put(v) => return Some(v);
          case Gone => return None;
        }
      }
      value := if key in root then Some(root[key]) else None;
    }

    /** Logs and caches a write in the innermost transaction, or writes the
        backing store when there is none. */
    method Write(op: Op<V>)
      requires Valid()
      modifies this
      ensures Valid() && View() == Apply(op, old(View()))
      ensures |layers| == old(|layers|) && Below() == old(Below())
      ensures layers != [] ==> root == old(root)
    {
      if layers == [] {
        root := Apply(op, root);
      } else {
        var below, top := layers[..|layers| - 1], layers[|layers| - 1];
        assert below + [top] == layers;
        LogWrite(root, below, top, op);
        layers := below + [Layer(top.local[op.key := op.ToDelta()], top.log + [op])];
        assert layers[..|layers| - 1] == below;
      }
    }

    method Set(key: bytes, value: V)
      requires Valid()
      modifies this
      ensures Valid() && View() == old(View())[key := value]
      ensures |layers| == old(|layers|) && Below() == old(Below())
      ensures layers != [] ==> root == old(root)
    {
      Write(Op.Set(key, value));
    }

    method Remove(key: bytes)
      requires Valid()
      modifies this
      ensures Valid() && View() == old(View()) - {key}
      ensures |layers| == old(|layers|) && Below() == old(Below())
      ensures layers != [] ==> root == old(root)
    {
      Write(Op.Delete(key));
    }

    /** Each transaction's cache is merged over the range of what is below it. */
    method Range(start: Option<bytes>, end: Option<bytes>, order: Order) returns (s: seq<Record<V>>)
      requires Valid()
      ensures IsRange(s, View(), start, end, order)
    {
      s := LocalRange(root, start, end, order);
      var n := 0;
      while n < |layers|
        invariant 0 <= n <= |layers|
        invariant IsRange(s, ViewOf(root, layers[..n]), start, end, order)
      {
        var local := LocalRange(layers[n].local, start, end, order);
        var merged := new MergeOverlay(local, s, order);
        assert layers[..n + 1][..n] == layers[..n];
        OverrideWithin(ViewOf(root, layers[..n]), layers[n].local, start, end);
        s := merged.Drain();
        n := n + 1;
      }
      assert layers[..n] == layers;
    }

    /** `prepare().commit(base)`: replays the innermost log on what is below. */
    method Commit()
      requires Valid() && layers != []
      modifies this
      ensures Valid() && View() == old(View())
      ensures |layers| == old(|layers|) - 1
      ensures layers != [] ==> root == old(root) && Below() == old(layers)[..|layers| - 1]
    {
      var log := layers[|layers| - 1].log;
      layers := layers[..|layers| - 1];
      ghost var base, below, n := View(), Below(), 0;
      var i := 0;
      while i < |log|
        invariant 0 <= i <= |log|
        invariant Valid() && |layers| == old(|layers|) - 1 && Below() == below
        invariant layers != [] ==> root == old(root)
        invariant View() == Replay(log[..i], base)
      {
        assert log[..i + 1][..i] == log[..i];
        Write(log[i]);
        i := i + 1;
      }
      assert log[..i] == log;
      ReplayIsOverride(log, base);
    }

    /** Dropping a transaction forgets its writes. */
    method Rollback()
      requires Valid() && layers != []
      modifies this`layers
      ensures Valid() && layers == old(Below()) && View() == ViewOf(old(root), old(Below()))
    {
      layers := layers[..|layers| - 1];
    }

    /** Committing a whole stack, innermost first, leaves the backing store as
        if every log had been applied to it, outermost first. */
    method CommitAll()
      requires Valid()
      modifies this
      ensures layers == [] && root == old(View())
      ensures root == Replay(Logs(old(layers)), old(root))
    {
      ViewReplaysLogs(root, layers);
      while layers != []
        invariant Valid() && View() == old(View())
        decreases |layers|
      {
        Commit();
      }
    }
  }
}
