/**
 Bank balances: `NativeBalance` lists of coins, a ledger of them, and the
 keeper's mint, burn and send.
 */
module Bank {
  import opened Bytes
  import opened Sums

  type Denom = bytes

  datatype Coin = Coin(denom: Denom, amount: nat)

  /** How much of a denomination a list of coins holds, repeats added up. */
  function Amount(b: seq<Coin>, d: Denom): nat {
    if b == [] then 0
    else (if b[0].denom == d then b[0].amount else 0) + Amount(b[1..], d)
  }

  /** Sorted by denomination, one entry each, no zeros. */
  ghost predicate Canonical(b: seq<Coin>) {
    && (forall i, j :: 0 <= i < j < |b| ==> Less(b[i].denom, b[j].denom))
    && (forall i :: 0 <= i < |b| ==> b[i].amount > 0)
  }

  // ---- NativeBalance ----

  function AddCoin(b: seq<Coin>, c: Coin): seq<Coin> {
    if b == [] then [c]
    else if b[0].denom == c.denom then [Coin(c.denom, b[0].amount + c.amount)] + b[1..]
    else if Less(c.denom, b[0].denom) then [c] + b
    else [b[0]] + AddCoin(b[1..], c)
  }

  /** `None` when the coin is missing or there is too little of it. */
  function SubCoin(b: seq<Coin>, c: Coin): Option<seq<Coin>> {
    if b == [] then None
    else if b[0].denom == c.denom then
      if b[0].amount < c.amount then None
      else if b[0].amount == c.amount then Some(b[1..])
      else Some([Coin(c.denom, b[0].amount - c.amount)] + b[1..])
    else
      var rest := SubCoin(b[1..], c);
      if rest.None? then None else Some([b[0]] + rest.value)
  }

  function AddAll(b: seq<Coin>, cs: seq<Coin>): seq<Coin>
    decreases cs
  {
    if cs == [] then b else AddAll(AddCoin(b, cs[0]), cs[1..])
  }

  function SubAll(b: seq<Coin>, cs: seq<Coin>): Option<seq<Coin>>
    decreases cs
  {
    if cs == [] then Some(b)
    else
      var r := SubCoin(b, cs[0]);
      if r.None? then None else SubAll(r.value, cs[1..])
  }

  /** Drops zeros, sorts and merges. */
  function Normalize(b: seq<Coin>): seq<Coin> {
    if b == [] then []
    else if b[0].amount == 0 then Normalize(b[1..])
    else AddCoin(Normalize(b[1..]), b[0])
  }

  lemma {:induction false} AddCoinAmount(b: seq<Coin>, c: Coin)
    ensures forall d :: Amount(AddCoin(b, c), d) == Amount(b, d) + (if c.denom == d then c.amount else 0)
  {
    var r := AddCoin(b, c);
    if b == [] {
      assert r[1..] == [];
    } else if b[0].denom == c.denom {
      assert r[1..] == b[1..];
    } else if Less(c.denom, b[0].denom) {
      assert r[1..] == b;
    } else {
      AddCoinAmount(b[1..], c);
      assert r[1..] == AddCoin(b[1..], c);
    }
  }

  /** Every denomination of `b` comes after `d`. */
  ghost predicate After(d: Denom, b: seq<Coin>) { forall i :: 0 <= i < |b| ==> Less(d, b[i].denom) }

  lemma AfterCons(d: Denom, x: Coin, b: seq<Coin>)
    ensures After(d, [x] + b) <==> Less(d, x.denom) && After(d, b)
  {
    var r := [x] + b;
    assert r[0] == x;
    if After(d, r) {
      forall i | 0 <= i < |b| ensures Less(d, b[i].denom) { assert r[i + 1] == b[i]; }
    }
  }

  lemma CanonicalCons(x: Coin, b: seq<Coin>)
    ensures Canonical([x] + b) <==> x.amount > 0 && After(x.denom, b) && Canonical(b)
  {
    var r := [x] + b;
    assert r[0] == x;
    if Canonical(r) {
      forall i | 0 <= i < |b| ensures Less(x.denom, b[i].denom) && b[i].amount > 0 { assert r[i + 1] == b[i]; }
      forall i, j | 0 <= i < j < |b| ensures Less(b[i].denom, b[j].denom) {
        assert r[i + 1] == b[i] && r[j + 1] == b[j];
      }
    }
  }

  lemma {:induction false} AddCoinAfter(d: Denom, b: seq<Coin>, c: Coin)
    requires After(d, b) && Less(d, c.denom)
    ensures After(d, AddCoin(b, c))
  {
    if b != [] {
      var x, t := b[0], b[1..];
      assert b == [x] + t;
      AfterCons(d, x, t);
      if x.denom == c.denom {
        AfterCons(d, Coin(c.denom, x.amount + c.amount), t);
      } else if Less(c.denom, x.denom) {
        AfterCons(d, c, b);
      } else {
        AddCoinAfter(d, t, c);
        AfterCons(d, x, AddCoin(t, c));
      }
    }
  }

  lemma {:induction false} AddCoinCanonical(b: seq<Coin>, c: Coin)
    requires Canonical(b) && c.amount > 0
    ensures Canonical(AddCoin(b, c))
  {
    if b != [] {
      var x, t := b[0], b[1..];
      assert b == [x] + t;
      CanonicalCons(x, t);
      if x.denom == c.denom {
        CanonicalCons(Coin(c.denom, x.amount + c.amount), t);
      } else if Less(c.denom, x.denom) {
        forall i | 0 <= i < |b| ensures Less(c.denom, b[i].denom) {
          if i > 0 { LessTransitive(c.denom, x.denom, b[i].denom); }
        }
        CanonicalCons(c, b);
      } else {
        LessTotal(c.denom, x.denom);
        AddCoinCanonical(t, c);
        AddCoinAfter(x.denom, t, c);
        CanonicalCons(x, AddCoin(t, c));
      }
    }
  }

  lemma {:induction false} AfterHasNone(d: Denom, b: seq<Coin>)
    requires After(d, b)
    ensures Amount(b, d) == 0
  {
    LessIrreflexive(d);
    if b != [] { AfterHasNone(d, b[1..]); }
  }

  lemma {:induction false} SubCoinAfter(d: Denom, b: seq<Coin>, c: Coin)
    requires After(d, b) && SubCoin(b, c).Some?
    ensures After(d, SubCoin(b, c).value)
  {
    var x, t := b[0], b[1..];
    assert b == [x] + t;
    AfterCons(d, x, t);
    if x.denom != c.denom {
      SubCoinAfter(d, t, c);
      AfterCons(d, x, SubCoin(t, c).value);
    } else if x.amount > c.amount {
      AfterCons(d, Coin(x.denom, x.amount - c.amount), t);
    }
  }

  lemma {:induction false} SubCoinCanonical(b: seq<Coin>, c: Coin)
    requires Canonical(b) && SubCoin(b, c).Some?
    ensures Canonical(SubCoin(b, c).value)
  {
    var x, t := b[0], b[1..];
    assert b == [x] + t;
    CanonicalCons(x, t);
    if x.denom != c.denom {
      SubCoinCanonical(t, c);
      SubCoinAfter(x.denom, t, c);
      CanonicalCons(x, SubCoin(t, c).value);
    } else if x.amount > c.amount {
      CanonicalCons(Coin(x.denom, x.amount - c.amount), t);
    }
  }

  /** Subtracting succeeds exactly when there is enough. */
  lemma {:induction false} SubCoinExact(b: seq<Coin>, c: Coin)
    requires Canonical(b) && c.amount > 0
    ensures SubCoin(b, c).Some? <==> Amount(b, c.denom) >= c.amount
    ensures SubCoin(b, c).Some? ==>
      && Canonical(SubCoin(b, c).value)
      && (forall d :: Amount(SubCoin(b, c).value, d) == Amount(b, d) - (if c.denom == d then c.amount else 0))
  {
    if b != [] {
      var x, t := b[0], b[1..];
      assert b == [x] + t;
      CanonicalCons(x, t);
      if x.denom == c.denom { AfterHasNone(c.denom, t); } else { SubCoinExact(t, c); }
      if SubCoin(b, c).Some? {
        SubCoinCanonical(b, c);
        assert x.denom != c.denom ==> SubCoin(b, c).value == [x] + SubCoin(t, c).value;
        var rest := if x.denom == c.denom then t else SubCoin(t, c).value;
        assert SubCoin(b, c).value != t ==> SubCoin(b, c).value[1..] == rest;
      }
    }
  }

  ghost predicate Positive(cs: seq<Coin>) { forall i :: 0 <= i < |cs| ==> cs[i].amount > 0 }

  lemma {:induction false} AddAllEffect(b: seq<Coin>, cs: seq<Coin>)
    requires Canonical(b) && Positive(cs)
    ensures Canonical(AddAll(b, cs))
    ensures forall d :: Amount(AddAll(b, cs), d) == Amount(b, d) + Amount(cs, d)
    decreases cs
  {
    if cs != [] {
      AddCoinCanonical(b, cs[0]);
      AddCoinAmount(b, cs[0]);
      AddAllEffect(AddCoin(b, cs[0]), cs[1..]);
    }
  }

  /** Subtracting a list, repeats included, succeeds exactly when every
      denomination's total is covered. */
  lemma {:induction false} SubAllEffect(b: seq<Coin>, cs: seq<Coin>)
    requires Canonical(b) && Positive(cs)
    ensures SubAll(b, cs).Some? <==> forall d :: Amount(b, d) >= Amount(cs, d)
    ensures SubAll(b, cs).Some? ==>
      && Canonical(SubAll(b, cs).value)
      && forall d :: Amount(SubAll(b, cs).value, d) == Amount(b, d) - Amount(cs, d)
    decreases cs
  {
    if cs != [] {
      SubCoinExact(b, cs[0]);
      var r := SubCoin(b, cs[0]);
      if r.Some? {
        SubAllEffect(r.value, cs[1..]);
        forall d ensures Amount(b, d) - Amount(cs, d) == Amount(r.value, d) - Amount(cs[1..], d) {}
        if SubAll(b, cs).Some? {
          forall d ensures Amount(b, d) >= Amount(cs, d) {
            assert Amount(r.value, d) >= Amount(cs[1..], d);
          }
        } else {
          var d :| Amount(r.value, d) < Amount(cs[1..], d);
          assert Amount(b, d) < Amount(cs, d);
        }
      } else {
        assert Amount(b, cs[0].denom) < Amount(cs, cs[0].denom);
      }
    }
  }

  lemma {:induction false} NormalizeEffect(b: seq<Coin>)
    ensures Canonical(Normalize(b))
    ensures forall d :: Amount(Normalize(b), d) == Amount(b, d)
  {
    if b != [] {
      NormalizeEffect(b[1..]);
      if b[0].amount != 0 {
        AddCoinCanonical(Normalize(b[1..]), b[0]);
        AddCoinAmount(Normalize(b[1..]), b[0]);
      }
    }
  }

  /** A canonical list is determined by its amounts. */
  lemma {:induction false} CanonicalUnique(a: seq<Coin>, b: seq<Coin>)
    requires Canonical(a) && Canonical(b)
    requires forall d :: Amount(a, d) == Amount(b, d)
    ensures a == b
  {
    assert b != [] ==> Amount(b, b[0].denom) >= b[0].amount;
    if a != [] {
      assert Amount(a, a[0].denom) >= a[0].amount > 0;
      assert b != [];
      assert a == [a[0]] + a[1..] && b == [b[0]] + b[1..];
      CanonicalCons(a[0], a[1..]); CanonicalCons(b[0], b[1..]);
      AfterHasNone(a[0].denom, a[1..]); AfterHasNone(b[0].denom, b[1..]);
      if Less(a[0].denom, b[0].denom) {
        BelowHasNone(a[0].denom, b);
      } else if Less(b[0].denom, a[0].denom) {
        BelowHasNone(b[0].denom, a);
      } else {
        LessTotal(a[0].denom, b[0].denom);
        assert a[0] == b[0];
        forall d ensures Amount(a[1..], d) == Amount(b[1..], d) { assert Amount(a, d) == Amount(b, d); }
        CanonicalUnique(a[1..], b[1..]);
      }
    }
  }

  lemma BelowHasNone(d: Denom, b: seq<Coin>)
    requires Canonical(b) && (b != [] ==> Less(d, b[0].denom))
    ensures Amount(b, d) == 0
  {
    forall i | 0 <= i < |b| ensures Less(d, b[i].denom) {
      if i > 0 { LessTransitive(d, b[0].denom, b[i].denom); }
    }
    AfterHasNone(d, b);
  }

  // ---- The ledger ----

  type Ledger<!K> = map<K, seq<Coin>>

  ghost predicate CanonicalLedger<K>(l: Ledger<K>) { forall a :: a in l ==> Canonical(l[a]) }

  function BalanceOf<K>(l: Ledger<K>, a: K): seq<Coin> { if a in l then l[a] else [] }

  function Has<K>(l: Ledger<K>, a: K, d: Denom): nat { Amount(BalanceOf(l, a), d) }

  function SetBalance<K>(l: Ledger<K>, a: K, b: seq<Coin>): Ledger<K> { l[a := Normalize(b)] }

  function NonZero(cs: seq<Coin>): seq<Coin> {
    if cs == [] then [] else (if cs[0].amount == 0 then [] else [cs[0]]) + NonZero(cs[1..])
  }

  /** `None` when every coin is zero. */
  function NormalizeAmount(cs: seq<Coin>): Option<seq<Coin>> {
    if NonZero(cs) == [] then None else Some(NonZero(cs))
  }

  /** Some coin of the list is more than zero. */
  ghost predicate Asks(cs: seq<Coin>) { exists i :: 0 <= i < |cs| && cs[i].amount > 0 }

  lemma {:induction false} AsksIsNonZero(cs: seq<Coin>)
    ensures Asks(cs) <==> NonZero(cs) != []
  {
    if cs != [] {
      AsksIsNonZero(cs[1..]);
      if Asks(cs[1..]) {
        var i :| 0 <= i < |cs[1..]| && cs[1..][i].amount > 0;
        assert cs[i + 1].amount > 0;
      }
      if Asks(cs) && cs[0].amount == 0 {
        var i :| 0 <= i < |cs| && cs[i].amount > 0;
        assert cs[1..][i - 1].amount > 0;
      }
    }
  }

  function Mint<K>(l: Ledger<K>, to: K, cs: seq<Coin>): Option<Ledger<K>> {
    var amount := NormalizeAmount(cs);
    if amount.None? then None else Some(SetBalance(l, to, AddAll(BalanceOf(l, to), amount.value)))
  }

  function Burn<K>(l: Ledger<K>, from: K, cs: seq<Coin>): Option<Ledger<K>> {
    var amount := NormalizeAmount(cs);
    if amount.None? then None
    else
      var rest := SubAll(BalanceOf(l, from), amount.value);
      if rest.None? then None else Some(SetBalance(l, from, rest.value))
  }

  function Send<K>(l: Ledger<K>, from: K, to: K, cs: seq<Coin>): Option<Ledger<K>> {
    var burnt := Burn(l, from, cs);
    if burnt.None? then None else Mint(burnt.value, to, cs)
  }

  ghost function Supply<K(!new)>(l: Ledger<K>, d: Denom): int {
    Sum(map a | a in l :: Amount(l[a], d))
  }

  ghost predicate Covers<K>(l: Ledger<K>, a: K, cs: seq<Coin>) { forall d :: Has(l, a, d) >= Amount(cs, d) }

  lemma {:induction false} NonZeroEffect(cs: seq<Coin>)
    ensures Positive(NonZero(cs))
    ensures forall d :: Amount(NonZero(cs), d) == Amount(cs, d)
  {
    if cs != [] {
      NonZeroEffect(cs[1..]);
      var r := NonZero(cs);
      if cs[0].amount == 0 {
        assert r == NonZero(cs[1..]);
      } else {
        assert r[1..] == NonZero(cs[1..]) && r[0] == cs[0];
      }
    }
  }

  lemma SetBalanceEffect<K(!new)>(l: Ledger<K>, a: K, b: seq<Coin>)
    requires CanonicalLedger(l)
    ensures CanonicalLedger(SetBalance(l, a, b))
    ensures forall k, d :: Has(SetBalance(l, a, b), k, d) == if k == a then Amount(b, d) else Has(l, k, d)
    ensures forall d :: Supply(SetBalance(l, a, b), d) == Supply(l, d) - Has(l, a, d) + Amount(b, d)
  {
    NormalizeEffect(b);
    var n := SetBalance(l, a, b);
    forall d ensures Supply(n, d) == Supply(l, d) - Has(l, a, d) + Amount(b, d) {
      var m := map k | k in l :: Amount(l[k], d);
      SumPut(m, a, Amount(b, d));
      assert (map k | k in n :: Amount(n[k], d)) == m[a := Amount(b, d)];
    }
  }

  lemma MintEffect<K(!new)>(l: Ledger<K>, to: K, cs: seq<Coin>)
    requires CanonicalLedger(l)
    ensures Mint(l, to, cs).Some? <==> NonZero(cs) != []
    ensures Mint(l, to, cs).Some? ==>
      var n := Mint(l, to, cs).value;
      && CanonicalLedger(n)
      && (forall k, d :: Has(n, k, d) == Has(l, k, d) + (if k == to then Amount(cs, d) else 0))
      && (forall d :: Supply(n, d) == Supply(l, d) + Amount(cs, d))
  {
    NonZeroEffect(cs);
    if NonZero(cs) != [] {
      AddAllEffect(BalanceOf(l, to), NonZero(cs));
      SetBalanceEffect(l, to, AddAll(BalanceOf(l, to), NonZero(cs)));
    }
  }

  lemma BurnEffect<K(!new)>(l: Ledger<K>, from: K, cs: seq<Coin>)
    requires CanonicalLedger(l)
    ensures Burn(l, from, cs).Some? <==> NonZero(cs) != [] && Covers(l, from, cs)
    ensures Burn(l, from, cs).Some? ==>
      var n := Burn(l, from, cs).value;
      && CanonicalLedger(n)
      && (forall k, d :: Has(n, k, d) == Has(l, k, d) - (if k == from then Amount(cs, d) else 0))
      && (forall d :: Supply(n, d) == Supply(l, d) - Amount(cs, d))
  {
    NonZeroEffect(cs);
    if NonZero(cs) != [] {
      SubAllEffect(BalanceOf(l, from), NonZero(cs));
      var rest := SubAll(BalanceOf(l, from), NonZero(cs));
      assert rest.Some? <==> Covers(l, from, cs);
      if rest.Some? { SetBalanceEffect(l, from, rest.value); }
    }
  }

  /** A send succeeds exactly when it asks for something the sender covers; it
      then moves just that, also from an account to itself, and no
      denomination's supply changes. */
  lemma SendEffect<K(!new)>(l: Ledger<K>, from: K, to: K, cs: seq<Coin>)
    requires CanonicalLedger(l)
    ensures Send(l, from, to, cs).Some? <==> NonZero(cs) != [] && Covers(l, from, cs)
    ensures Send(l, from, to, cs).Some? ==>
      var n := Send(l, from, to, cs).value;
      && CanonicalLedger(n)
      && (forall k, d :: Has(n, k, d) == Has(l, k, d) - (if k == from then Amount(cs, d) else 0)
                                                      + (if k == to then Amount(cs, d) else 0))
      && (forall d :: Supply(n, d) == Supply(l, d))
  {
    BurnEffect(l, from, cs);
    if Burn(l, from, cs).Some? { MintEffect(Burn(l, from, cs).value, to, cs); }
  }

  lemma SupplyBounds<K(!new)>(l: Ledger<K>, d: Denom)
    ensures Supply(l, d) >= 0
    ensures forall a :: Has(l, a, d) <= Supply(l, d)
  {
    var m := map a | a in l :: Amount(l[a], d);
    SumNonNegative(m);
    forall a ensures Has(l, a, d) <= Supply(l, d) {
      if a in l { assert m[a] == Has(l, a, d); }
    }
  }

  /** `balances.iter().find(|b| b.denom == d)` on a stored balance. */
  function Find(b: seq<Coin>, d: Denom): Option<Coin> {
    if b == [] then None else if b[0].denom == d then Some(b[0]) else Find(b[1..], d)
  }

  lemma {:induction false} FindIsAmount(b: seq<Coin>, d: Denom)
    requires Canonical(b)
    ensures Find(b, d).Some? <==> Amount(b, d) > 0
    ensures Find(b, d).Some? ==> Find(b, d).value == Coin(d, Amount(b, d))
  {
    if b != [] {
      assert b == [b[0]] + b[1..];
      CanonicalCons(b[0], b[1..]);
      if b[0].denom == d { AfterHasNone(d, b[1..]); } else { FindIsAmount(b[1..], d); }
    }
  }

  // ---- The supply query ----

  method Subtotal(b: seq<Coin>, d: Denom) returns (subtotal: nat)
    ensures subtotal == Amount(b, d)
  {
    subtotal := 0;
    for i := 0 to |b|
      invariant subtotal + Amount(b[i..], d) == Amount(b, d)
    {
      if b[i].denom == d { subtotal := subtotal + b[i].amount; }
      assert b[i..][1..] == b[i + 1..];
    }
  }

  ghost function Amounts<K>(l: Ledger<K>, d: Denom): (m: map<K, int>)
    ensures m.Keys == l.Keys
  {
    map a | a in l :: Amount(l[a], d)
  }

  /** `get_supply`: every account's coins of the denomination, account by account. */
  method GetSupply<K(==, !new)>(l: Ledger<K>, d: Denom) returns (total: nat)
    ensures total == Supply(l, d)
  {
    total := 0;
    var todo := l;
    assert Sum(Amounts(l, d)) == Supply(l, d);
    while todo.Keys != {}
      invariant total + Sum(Amounts(todo, d)) == Supply(l, d)
      decreases |todo|
    {
      var a :| a in todo.Keys;
      var subtotal := Subtotal(todo[a], d);
      total := total + subtotal;
      SumTake(Amounts(todo, d), a);
      assert Amounts(todo, d) - {a} == Amounts(todo - {a}, d);
      todo := todo - {a};
    }
    assert todo == map[] && Amounts(todo, d) == map[];
  }
}
