/**
 What every run of the message engine keeps, stated on the reference
 interpreter the engine is proved to follow.
 */
module EngineLaws {
  import opened Bytes
  import opened Overlay
  import opened Namespaces
  import opened Bank
  import opened Messages
  import opened Reference

  // ---- The depth bound does not matter once it is enough ----

  lemma {:induction false} RunMsgDeeper(env: Env, fuel: nat, more: nat, sender: Addr, msg: Msg, s: Store)
    requires fuel <= more && !RunMsg(env, fuel, sender, msg, s).Diverged?
    ensures RunMsg(env, more, sender, msg, s) == RunMsg(env, fuel, sender, msg, s)
    decreases fuel, 1, 0
  {
    if msg.WasmExecute? && env.validAddr(msg.contract) {
      var moved := if msg.funds == [] then Done(s) else SendCoins(s, sender, msg.contract, msg.funds);
      if moved.Done? {
        var call := Call.Execute(sender, msg.funds, msg.msg);
        RunEntryDeeper(env, fuel, more, msg.contract, call, ExecuteEvent(msg.contract), moved.value);
      }
    }
  }

  lemma {:induction false} RunEntryDeeper(env: Env, fuel: nat, more: nat, contract: Addr, call: Call, custom: Event,
                                          s: Store)
    requires fuel <= more && !RunEntry(env, fuel, contract, call, custom, s).Diverged?
    ensures RunEntry(env, more, contract, call, custom, s) == RunEntry(env, fuel, contract, call, custom, s)
    decreases fuel, 0, 0
  {
    var called := CallContract(env, s, contract, call);
    if called.Done? {
      var p := called.value;
      RunAllDeeper(env, fuel - 1, more - 1, contract, BuildAppResponse(contract, custom, p.0), p.0.messages, p.1);
    }
  }

  lemma {:induction false} RunAllDeeper(env: Env, fuel: nat, more: nat, contract: Addr, resp: AppResponse,
                                        msgs: seq<SubMsg>, s: Store)
    requires fuel <= more && !RunAll(env, fuel, contract, resp, msgs, s).Diverged?
    ensures RunAll(env, more, contract, resp, msgs, s) == RunAll(env, fuel, contract, resp, msgs, s)
    decreases fuel, 3, |msgs|
  {
    if msgs != [] {
      RunSubMsgDeeper(env, fuel, more, contract, msgs[0], s);
      var first := RunSubMsg(env, fuel, contract, msgs[0], s);
      if first.Done? {
        var r := first.value;
        var next := AppResponse(resp.events + r.resp.events, Or(r.resp.data, resp.data));
        RunAllDeeper(env, fuel, more, contract, next, msgs[1..], r.store);
      }
    }
  }

  lemma {:induction false} RunSubMsgDeeper(env: Env, fuel: nat, more: nat, contract: Addr, sub: SubMsg, s: Store)
    requires fuel <= more && !RunSubMsg(env, fuel, contract, sub, s).Diverged?
    ensures RunSubMsg(env, more, contract, sub, s) == RunSubMsg(env, fuel, contract, sub, s)
    decreases fuel, 2, 0
  {
    RunMsgDeeper(env, fuel, more, contract, sub.msg, s);
    match RunMsg(env, fuel, contract, sub.msg, s)
    case Diverged =>
    case Failed(e) =>
      if RepliesToErr(sub.replyOn) {
        var call := Call.Reply(sub.id, sub.payload, SubErr(e));
        RunEntryDeeper(env, fuel, more, contract, call, ReplyEvent(contract, false), s);
      }
    case Done(r) =>
      if RepliesToOk(sub.replyOn) {
        var result := SubOk(r.resp.events, r.resp.data, TypeUrl(sub.msg));
        var call := Call.Reply(sub.id, sub.payload, result);
        RunEntryDeeper(env, fuel, more, contract, call, ReplyEvent(contract, true), r.store);
      }
  }

  // ---- Isolation ----

  lemma {:induction false} WritesStayInside(s: Store, contract: Addr, writes: seq<Op<bytes>>, path: seq<bytes>)
    requires AllEncodable(path) && |path| == 2 && path != ContractPath(contract)
    ensures Sub(Replay(LocatedAll(contract, writes), s), Nested(path)) == Sub(s, Nested(path))
  {
    if writes != [] {
      var log := LocatedAll(contract, writes);
      var n := |writes| - 1;
      assert log[..n] == LocatedAll(contract, writes[..n]);
      WritesStayInside(s, contract, writes[..n], path);
      NamespaceIsolation(Replay(log[..n], s), ContractPath(contract), path, log[n], writes[n].key);
    }
  }

  /** A contract's code changes its own storage only: not the balances, not the
      contract registry, not another contract. */
  lemma CallTouchesOwnStorageOnly(env: Env, s: Store, contract: Addr, call: Call)
    requires CallContract(env, s, contract, call).Done?
    ensures var t := CallContract(env, s, contract, call).value.1;
      && LedgerOf(t) == LedgerOf(s) && (BankValid(s) ==> BankValid(t))
      && Sub(t, RegistryPrefix()) == Sub(s, RegistryPrefix())
      && forall other: Addr :: other != contract ==> Sub(t, ContractPrefix(other)) == Sub(s, ContractPrefix(other))
  {
    var writes := env.run(s[RegistryPrefix() + contract].codeId, contract, call, s).writes;
    ContractPathsApart(contract);
    WritesStayInside(s, contract, writes, BALANCES_PATH);
    WritesStayInside(s, contract, writes, REGISTRY_PATH);
    forall other: Addr | other != contract
      ensures Sub(CallContract(env, s, contract, call).value.1, ContractPrefix(other)) == Sub(s, ContractPrefix(other))
    {
      WritesStayInside(s, contract, writes, ContractPath(other));
    }
  }

  // ---- Supply ----

  /** From `s` to `t` every supply fell by exactly what was burned, the ledger
      stayed canonical, and the registry did not change. */
  ghost predicate Accounts(s: Store, t: Store, burned: seq<Coin>) {
    && BankValid(t)
    && (forall d :: Supply(LedgerOf(t), d) == Supply(LedgerOf(s), d) - Amount(burned, d))
    && Sub(t, RegistryPrefix()) == Sub(s, RegistryPrefix())
  }

  lemma {:induction false} AmountConcat(a: seq<Coin>, b: seq<Coin>, d: Denom)
    ensures Amount(a + b, d) == Amount(a, d) + Amount(b, d)
  {
    if a == [] {
      assert a + b == b;
    } else {
      assert (a + b)[1..] == a[1..] + b;
      AmountConcat(a[1..], b, d);
    }
  }

  lemma AccountsChain(s: Store, t: Store, u: Store, b: seq<Coin>, c: seq<Coin>)
    requires Accounts(s, t, b) && Accounts(t, u, c)
    ensures Accounts(s, u, b + c)
  {
    forall d ensures Amount(b + c, d) == Amount(b, d) + Amount(c, d) { AmountConcat(b, c, d); }
  }

  lemma ValidLedger(s: Store)
    requires BankValid(s)
    ensures CanonicalLedger(LedgerOf(s))
  {
  }

  lemma LedgerPut(s: Store, t: Store, a: Addr, b: seq<Coin>)
    requires BankValid(s) && Canonical(b)
    requires Sub(t, BalancePrefix()) == Sub(s, BalancePrefix())[a := Coins(b)]
    ensures BankValid(t) && LedgerOf(t) == LedgerOf(s)[a := b]
  {
  }

  /** Storing a canonical balance updates the ledger at that account only. */
  lemma StoreBalance(s: Store, a: Addr, b: seq<Coin>)
    requires BankValid(s) && Canonical(b)
    ensures var t := s[BalancePrefix() + a := Coins(b)];
      BankValid(t) && LedgerOf(t) == LedgerOf(s)[a := b] && Sub(t, RegistryPrefix()) == Sub(s, RegistryPrefix())
  {
    var op: Op<Value> := Op.Set(BalancePrefix() + a, Coins(b));
    SubApply(s, BalancePrefix(), Op.Set(a, Coins(b)), op);
    LedgerPut(s, Apply(op, s), a, b);
    assert BALANCES_PATH[0] != REGISTRY_PATH[0];
    NamespaceIsolation(s, BALANCES_PATH, REGISTRY_PATH, op, a);
  }

  lemma MintAccounts(s: Store, to: Addr, cs: seq<Coin>)
    requires BankValid(s) && MintTo(s, to, cs).Done?
    ensures var t := MintTo(s, to, cs).value;
      && BankValid(t) && Sub(t, RegistryPrefix()) == Sub(s, RegistryPrefix())
      && forall d :: Supply(LedgerOf(t), d) == Supply(LedgerOf(s), d) + Amount(cs, d)
  {
    ValidLedger(s);
    MintEffect<bytes>(LedgerOf(s), to, cs);
    var l := Mint<bytes>(LedgerOf(s), to, cs).value;
    StoreBalance(s, to, BalanceOf<bytes>(l, to));
    assert LedgerOf(s)[to := l[to]] == l;
  }

  lemma BurnAccounts(s: Store, from: Addr, cs: seq<Coin>)
    requires BankValid(s) && BurnFrom(s, from, cs).Done?
    ensures Accounts(s, BurnFrom(s, from, cs).value, cs)
  {
    ValidLedger(s);
    BurnEffect<bytes>(LedgerOf(s), from, cs);
    var l := Burn<bytes>(LedgerOf(s), from, cs).value;
    StoreBalance(s, from, BalanceOf<bytes>(l, from));
    assert LedgerOf(s)[from := l[from]] == l;
  }

  lemma SendAccounts(s: Store, from: Addr, to: Addr, cs: seq<Coin>)
    requires BankValid(s) && SendCoins(s, from, to, cs).Done?
    ensures Accounts(s, SendCoins(s, from, to, cs).value, [])
  {
    BurnAccounts(s, from, cs);
    MintAccounts(BurnFrom(s, from, cs).value, to, cs);
  }

  /** Any successful message, however deep the tree of messages it sets off,
      and whatever failed and was caught inside it. */
  lemma {:induction false} RunMsgAccounts(env: Env, fuel: nat, sender: Addr, msg: Msg, s: Store)
    requires BankValid(s) && RunMsg(env, fuel, sender, msg, s).Done?
    ensures Accounts(s, RunMsg(env, fuel, sender, msg, s).value.store, RunMsg(env, fuel, sender, msg, s).value.burned)
    decreases fuel, 1, 0
  {
    match msg
    case BankSend(to, amount) => SendAccounts(s, sender, to, amount);
    case BankBurn(amount) => BurnAccounts(s, sender, amount);
    case WasmExecute(contract, m, funds) =>
      var t := if funds == [] then s else SendCoins(s, sender, contract, funds).value;
      if funds != [] { SendAccounts(s, sender, contract, funds); }
      var call := Call.Execute(sender, funds, m);
      RunEntryAccounts(env, fuel, contract, call, ExecuteEvent(contract), t);
      var e := RunEntry(env, fuel, contract, call, ExecuteEvent(contract), t).value;
      AccountsChain(s, t, e.store, [], e.burned);
      assert [] + e.burned == e.burned;
  }

  lemma {:induction false} RunEntryAccounts(env: Env, fuel: nat, contract: Addr, call: Call, custom: Event, s: Store)
    requires BankValid(s) && RunEntry(env, fuel, contract, call, custom, s).Done?
    ensures var e := RunEntry(env, fuel, contract, call, custom, s).value; Accounts(s, e.store, e.burned)
    decreases fuel, 0, 0
  {
    CallTouchesOwnStorageOnly(env, s, contract, call);
    var p := CallContract(env, s, contract, call).value;
    var resp := BuildAppResponse(contract, custom, p.0);
    RunAllAccounts(env, fuel - 1, contract, resp, p.0.messages, p.1);
    var e := RunAll(env, fuel - 1, contract, resp, p.0.messages, p.1).value;
    AccountsChain(s, p.1, e.store, [], e.burned);
    assert [] + e.burned == e.burned;
  }

  lemma {:induction false} RunAllAccounts(env: Env, fuel: nat, contract: Addr, resp: AppResponse, msgs: seq<SubMsg>,
                                          s: Store)
    requires BankValid(s) && RunAll(env, fuel, contract, resp, msgs, s).Done?
    ensures var e := RunAll(env, fuel, contract, resp, msgs, s).value; Accounts(s, e.store, e.burned)
    decreases fuel, 3, |msgs|
  {
    if msgs != [] {
      RunSubMsgAccounts(env, fuel, contract, msgs[0], s);
      var r := RunSubMsg(env, fuel, contract, msgs[0], s).value;
      var next := AppResponse(resp.events + r.resp.events, Or(r.resp.data, resp.data));
      RunAllAccounts(env, fuel, contract, next, msgs[1..], r.store);
      var e := RunAll(env, fuel, contract, next, msgs[1..], r.store).value;
      AccountsChain(s, r.store, e.store, r.burned, e.burned);
    }
  }

  lemma {:induction false} RunSubMsgAccounts(env: Env, fuel: nat, contract: Addr, sub: SubMsg, s: Store)
    requires BankValid(s) && RunSubMsg(env, fuel, contract, sub, s).Done?
    ensures var e := RunSubMsg(env, fuel, contract, sub, s).value; Accounts(s, e.store, e.burned)
    decreases fuel, 2, 0
  {
    var ran := RunMsg(env, fuel, contract, sub.msg, s);
    if ran.Failed? {
      var call := Call.Reply(sub.id, sub.payload, SubErr(ran.error));
      RunEntryAccounts(env, fuel, contract, call, ReplyEvent(contract, false), s);
    } else {
      RunMsgAccounts(env, fuel, contract, sub.msg, s);
      var r := ran.value;
      if RepliesToOk(sub.replyOn) {
        var call := Call.Reply(sub.id, sub.payload, SubOk(r.resp.events, r.resp.data, TypeUrl(sub.msg)));
        RunEntryAccounts(env, fuel, contract, call, ReplyEvent(contract, true), r.store);
        var t := RunEntry(env, fuel, contract, call, ReplyEvent(contract, true), r.store).value;
        AccountsChain(s, r.store, t.store, r.burned, t.burned);
      }
    }
  }

  // ---- Batches ----

  type Batch = Outcome<(seq<AppResponse>, Store)>

  /** The outcome of going on from a first batch with a second. */
  function Joined(first: seq<AppResponse>, second: Batch): Batch {
    match second
    case Failed(e) => Failed(e)
    case Diverged => Diverged
    case Done(q) => Done((first + q.0, q.1))
  }

  lemma JoinedTwice(a: seq<AppResponse>, b: seq<AppResponse>, r: Batch)
    ensures Joined(a + b, r) == Joined(a, Joined(b, r))
    ensures Joined([], r) == r
  {
    if r.Done? {
      assert a + b + r.value.0 == a + (b + r.value.0);
      assert [] + r.value.0 == r.value.0;
    }
  }

  /** A batch is its first part followed by its second: it succeeds exactly when
      both do in turn, with the same responses and the same final store. */
  lemma {:induction false} RunListConcat(env: Env, fuel: nat, sender: Addr, a: seq<Msg>, b: seq<Msg>, s: Store)
    ensures RunList(env, fuel, sender, a + b, s) ==
      match RunList(env, fuel, sender, a, s)
      case Done(p) => Joined(p.0, RunList(env, fuel, sender, b, p.1))
      case Failed(e) => Failed(e)
      case Diverged => Diverged
  {
    if a == [] {
      assert a + b == b;
      JoinedTwice([], [], RunList(env, fuel, sender, b, s));
    } else {
      assert (a + b)[1..] == a[1..] + b;
      var r := RunMsg(env, fuel, sender, a[0], s);
      if r.Done? {
        RunListConcat(env, fuel, sender, a[1..], b, r.value.store);
        var p := RunList(env, fuel, sender, a[1..], r.value.store);
        if p.Done? {
          JoinedTwice([r.value.resp], p.value.0, RunList(env, fuel, sender, b, p.value.1));
        }
      }
    }
  }
}
