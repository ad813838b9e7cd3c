/**
 What a user sees of a message: which account pays which, when a contract is
 called and on what store, which failures are replied to, and what data and events
 come back.
 */
module EngineOutcomes {
  import opened Bytes
  import opened Overlay
  import opened Namespaces
  import opened Bank
  import opened Messages
  import opened Reference
  import opened EngineLaws

  // ---- Coins ----

  /** What account `a` has of `d` in a store. */
  ghost function Holds(s: Store, a: Addr, d: Denom): nat { Has(LedgerOf(s), a, d) }

  ghost predicate CanPay(s: Store, a: Addr, cs: seq<Coin>) { forall d :: Holds(s, a, d) >= Amount(cs, d) }

  /** Nothing is stored differently but the balances of `x` and `y`. */
  ghost predicate OnlyBalances(s: Store, t: Store, x: Addr, y: Addr) {
    forall k :: k != BalancePrefix() + x && k != BalancePrefix() + y ==>
      (k in t <==> k in s) && (k in s ==> t[k] == s[k])
  }

  lemma HasPut(l: Ledger<bytes>, a: bytes, b: seq<Coin>, k: bytes, d: Denom)
    ensures Has(l[a := b], k, d) == if k == a then Amount(b, d) else Has(l, k, d)
  {
  }

  lemma BalanceStored(s: Store, a: Addr, l: Ledger<bytes>)
    requires BankValid(s) && CanonicalLedger(l)
    requires forall k, d :: k != a ==> Has(l, k, d) == Has(LedgerOf(s), k, d)
    ensures var t := s[BalancePrefix() + a := Coins(BalanceOf(l, a))];
      BankValid(t) && OnlyBalances(s, t, a, a) && forall k: Addr, d :: Holds(t, k, d) == Has(l, k, d)
  {
    var b := BalanceOf(l, a);
    StoreBalance(s, a, b);
    forall k: Addr, d ensures Holds(s[BalancePrefix() + a := Coins(b)], k, d) == Has(l, k, d) {
      HasPut(LedgerOf(s), a, b, k, d);
    }
  }

  lemma ValidIsLoadable(s: Store, a: Addr)
    requires BankValid(s)
    ensures Loadable(s, a)
  {
    SubKeys(s, BalancePrefix(), a);
  }

  /** A mint gives `to` the listed amounts and nobody anything else. */
  lemma MintMoves(s: Store, to: Addr, cs: seq<Coin>)
    requires BankValid(s)
    ensures MintTo(s, to, cs) == Failed(EmptyCoins) || MintTo(s, to, cs).Done?
    ensures MintTo(s, to, cs).Done? <==> Asks(cs)
    ensures MintTo(s, to, cs).Done? ==> var t := MintTo(s, to, cs).value;
      && BankValid(t) && OnlyBalances(s, t, to, to)
      && forall a: Addr, d :: Holds(t, a, d) == Holds(s, a, d) + if a == to then Amount(cs, d) else 0
  {
    ValidLedger(s);
    AsksIsNonZero(cs);
    ValidIsLoadable(s, to);
    MintEffect<bytes>(LedgerOf(s), to, cs);
    if Asks(cs) { BalanceStored(s, to, Mint<bytes>(LedgerOf(s), to, cs).value); }
  }

  /** A burn takes the listed amounts from `from`, who must have them. */
  lemma BurnMoves(s: Store, from: Addr, cs: seq<Coin>)
    requires BankValid(s)
    ensures BurnFrom(s, from, cs) == Failed(EmptyCoins) <==> !Asks(cs)
    ensures BurnFrom(s, from, cs) == Failed(Insufficient) <==> Asks(cs) && !CanPay(s, from, cs)
    ensures BurnFrom(s, from, cs).Done? <==> Asks(cs) && CanPay(s, from, cs)
    ensures BurnFrom(s, from, cs).Done? ==> var t := BurnFrom(s, from, cs).value;
      && BankValid(t) && OnlyBalances(s, t, from, from)
      && forall a: Addr, d :: Holds(t, a, d) == Holds(s, a, d) - if a == from then Amount(cs, d) else 0
  {
    ValidLedger(s);
    AsksIsNonZero(cs);
    ValidIsLoadable(s, from);
    BurnEffect<bytes>(LedgerOf(s), from, cs);
    assert Covers(LedgerOf(s), from, cs) <==> CanPay(s, from, cs);
    if BurnFrom(s, from, cs).Done? { BalanceStored(s, from, Burn<bytes>(LedgerOf(s), from, cs).value); }
  }

  /** From `s` to `t` the coins went from one account to the other, and nothing else changed. */
  ghost predicate Paid(s: Store, t: Store, from: Addr, to: Addr, cs: seq<Coin>) {
    && BankValid(t) && OnlyBalances(s, t, from, to)
    && forall a: Addr, d :: Holds(t, a, d)
         == Holds(s, a, d) - (if a == from then Amount(cs, d) else 0) + (if a == to then Amount(cs, d) else 0)
  }

  lemma SendMoves(s: Store, from: Addr, to: Addr, cs: seq<Coin>)
    requires BankValid(s)
    ensures SendCoins(s, from, to, cs) == Failed(EmptyCoins) <==> !Asks(cs)
    ensures SendCoins(s, from, to, cs) == Failed(Insufficient) <==> Asks(cs) && !CanPay(s, from, cs)
    ensures SendCoins(s, from, to, cs).Done? <==> Asks(cs) && CanPay(s, from, cs)
    ensures SendCoins(s, from, to, cs).Done? ==> Paid(s, SendCoins(s, from, to, cs).value, from, to, cs)
  {
    BurnMoves(s, from, cs);
    if BurnFrom(s, from, cs).Done? { MintMoves(BurnFrom(s, from, cs).value, to, cs); }
  }

  // ---- Messages ----

  /** A bank send pays just that, reports it, and fails only for want of coins. */
  lemma BankSendPays(env: Env, fuel: nat, sender: Addr, to: Addr, cs: seq<Coin>, s: Store)
    requires BankValid(s)
    ensures var r := RunMsg(env, fuel, sender, BankSend(to, cs), s);
      && (!Asks(cs) ==> r == Failed(EmptyCoins))
      && (Asks(cs) && !CanPay(s, sender, cs) ==> r == Failed(Insufficient))
      && (Asks(cs) && CanPay(s, sender, cs) ==>
            && r.Done? && Paid(s, r.value.store, sender, to, cs) && r.value.burned == [] && r.value.resp.data == None
            && r.value.resp.events
               == [Event("transfer", [Attr("recipient", Address(to)), Attr("sender", Address(sender)),
                                      Attr("amount", Amounts(cs))])])
  {
    SendMoves(s, sender, to, cs);
  }

  /** A bank burn destroys just that. */
  lemma BankBurnDestroys(env: Env, fuel: nat, sender: Addr, cs: seq<Coin>, s: Store)
    requires BankValid(s)
    ensures var r := RunMsg(env, fuel, sender, BankBurn(cs), s);
      && (!Asks(cs) ==> r == Failed(EmptyCoins))
      && (Asks(cs) && !CanPay(s, sender, cs) ==> r == Failed(Insufficient))
      && (Asks(cs) && CanPay(s, sender, cs) ==>
            && r.Done? && r.value.burned == cs && r.value.resp == AppResponse([], None)
            && BankValid(r.value.store) && OnlyBalances(s, r.value.store, sender, sender)
            && forall a: Addr, d ::
                 Holds(r.value.store, a, d) == Holds(s, a, d) - if a == sender then Amount(cs, d) else 0)
  {
    BurnMoves(s, sender, cs);
  }

  /** A contract has its funds when it is called, and is not called when the sender
      cannot pay them; its own data comes back encoded. */
  lemma FundsComeFirst(env: Env, fuel: nat, sender: Addr, contract: Addr, m: bytes, funds: seq<Coin>, s: Store)
    returns (t: Store)
    requires BankValid(s)
    ensures var r := RunMsg(env, fuel, sender, WasmExecute(contract, m, funds), s);
      var called := RunEntry(env, fuel, contract, Call.Execute(sender, funds, m),
                             Event("execute", [Attr("_contract_address", Address(contract))]), t);
      && (!env.validAddr(contract) ==> r == Failed(BadAddress))
      && (env.validAddr(contract) && funds != [] && !Asks(funds) ==> r == Failed(EmptyCoins))
      && (env.validAddr(contract) && Asks(funds) && !CanPay(s, sender, funds) ==> r == Failed(Insufficient))
      && (env.validAddr(contract) && (funds == [] || (Asks(funds) && CanPay(s, sender, funds))) ==>
            && (if funds == [] then t == s else Paid(s, t, sender, contract, funds))
            && (called.Failed? ==> r == Failed(called.error)) && (called.Diverged? ==> r.Diverged?)
            && (called.Done? ==>
                  && r.Done? && r.value.store == called.value.store && r.value.burned == called.value.burned
                  && r.value.resp.events == called.value.resp.events
                  && r.value.resp.data == match called.value.resp.data
                                          case None => None
                                          case Some(x) => Some(env.encode(x))))
  {
    SendMoves(s, sender, contract, funds);
    t := if funds == [] || !SendCoins(s, sender, contract, funds).Done? then s
         else SendCoins(s, sender, contract, funds).value;
  }

  // ---- Contract calls ----

  /** What a contract wrote, seen in its own storage. */
  function Stored(op: Op<bytes>): Op<Value> {
    match op
    case Set(k, v) => Op.Set(k, Raw(v))
    case Delete(k) => Op.Delete(k)
  }

  function AllStored(ops: seq<Op<bytes>>): seq<Op<Value>> {
    seq(|ops|, i requires 0 <= i < |ops| => Stored(ops[i]))
  }

  lemma {:induction false} OwnStorage(s: Store, contract: Addr, writes: seq<Op<bytes>>)
    ensures Sub(Replay(LocatedAll(contract, writes), s), ContractPrefix(contract))
         == Replay(AllStored(writes), Sub(s, ContractPrefix(contract)))
  {
    if writes != [] {
      var n, log, own := |writes| - 1, LocatedAll(contract, writes), AllStored(writes);
      assert log[..n] == LocatedAll(contract, writes[..n]) && own[..n] == AllStored(writes[..n]);
      OwnStorage(s, contract, writes[..n]);
      SubApply(Replay(log[..n], s), ContractPrefix(contract), own[n], log[n]);
    }
  }

  /** Code is run for a registered contract whose code exists, on the chain as it
      stands and on exactly that call; its writes, in order, are what its own storage
      shows afterwards, and they and its answer count only if it returns something
      well formed. */
  lemma CallRunsCode(env: Env, s: Store, contract: Addr, call: Call)
    ensures var r, k := CallContract(env, s, contract, call), RegistryPrefix() + contract;
      && (k !in s ==> r == Failed(NoContract))
      && (k in s && !s[k].Contract? ==> r == Failed(Undecodable))
      && (k in s && s[k].Contract? && !env.hasCode(s[k].codeId) ==> r == Failed(NoCode))
      && (k in s && s[k].Contract? && env.hasCode(s[k].codeId) ==>
            var ran := env.run(s[k].codeId, contract, call, s);
            && (ran.result.Err? ==> r == Failed(ran.result.error))
            && (ran.result.Ok? && !env.wellFormed(ran.result.value) ==> r == Failed(BadResponse))
            && (ran.result.Ok? && env.wellFormed(ran.result.value) ==>
                  && r.Done? && r.value.0 == ran.result.value
                  && Sub(r.value.1, ContractPrefix(contract))
                     == Replay(AllStored(ran.writes), Sub(s, ContractPrefix(contract)))))
  {
    var k := RegistryPrefix() + contract;
    if k in s && s[k].Contract? { OwnStorage(s, contract, env.run(s[k].codeId, contract, call, s).writes); }
  }

  /** A contract's answer: its entry point's event first, then one `wasm` event when
      there are attributes, then its own events under a `wasm-` name, each led by the
      contract's address. */
  lemma ResponseIs(contract: Addr, custom: Event, r: Response)
    ensures var out, at := BuildAppResponse(contract, custom, r), Attr("_contract_address", Address(contract));
      var before := if r.attributes == [] then 1 else 2;
      && out.data == r.data && |out.events| == before + |r.events| && out.events[0] == custom
      && (r.attributes != [] ==> out.events[1] == Event("wasm", [at] + r.attributes))
      && forall i :: 0 <= i < |r.events| ==>
           out.events[before + i] == Event("wasm-" + r.events[i].ty, [at] + r.events[i].attributes)
  {
  }

  /** An entry point is called and then, in order, all it asks for is run. */
  lemma EntryIs(env: Env, fuel: nat, contract: Addr, call: Call, custom: Event, s: Store)
    ensures var r, called := RunEntry(env, fuel, contract, call, custom, s), CallContract(env, s, contract, call);
      && (called.Failed? ==> r == Failed(called.error)) && (called.Diverged? ==> r.Diverged?)
      && (called.Done? && fuel == 0 ==> r.Diverged?)
      && (called.Done? && fuel > 0 ==>
            var (answer, t) := called.value;
            r == RunAll(env, fuel - 1, contract, BuildAppResponse(contract, custom, answer), answer.messages, t))
  {
  }

  // ---- Submessages ----

  /** A failure is replied to under `OnError` and `Always`, on the store before the
      submessage, and is the caller's failure under `Never` and `OnSuccess`. */
  lemma FailureIsRepliedTo(env: Env, fuel: nat, contract: Addr, sub: SubMsg, s: Store, e: Error)
    requires RunMsg(env, fuel, contract, sub.msg, s) == Failed(e)
    ensures var reply := RunEntry(env, fuel, contract, Call.Reply(sub.id, sub.payload, SubErr(e)),
                                  Event("reply", [Attr("_contract_address", Address(contract)),
                                                  Attr("mode", Text("handle_failure"))]), s);
      RunSubMsg(env, fuel, contract, sub, s) == match sub.replyOn
                                                case Always => reply
                                                case OnError => reply
                                                case OnSuccess => Failed(e)
                                                case Never => Failed(e)
  {
  }

  /** The message's type as a reply reports it. */
  ghost predicate TypeIs(m: Msg, url: string) {
    match m
    case BankSend(_, _) => url == "/cosmos.bank.v1beta1.MsgSendResponse"
    case BankBurn(_) => url == "/cosmos.bank.v1beta1.MsgBurnResponse"
    case WasmExecute(_, _, _) => url == "/cosmwasm.wasm.v1.MsgExecuteContractResponse"
    case Unrouted => true
  }

  /** A success is replied to under `OnSuccess` and `Always`, on the store it leaves
      and with its events and data: the reply's data is the data, both event lists
      count, the reply's last, and a failing reply fails it all. Under `Never` and
      `OnError` the store stays, and the data is dropped. */
  lemma SuccessIsRepliedTo(env: Env, fuel: nat, contract: Addr, sub: SubMsg, s: Store, e: Effect) returns (url: string)
    requires RunMsg(env, fuel, contract, sub.msg, s) == Done(e)
    ensures TypeIs(sub.msg, url)
    ensures var reply := RunEntry(env, fuel, contract,
                                  Call.Reply(sub.id, sub.payload, SubOk(e.resp.events, e.resp.data, url)),
                                  Event("reply", [Attr("_contract_address", Address(contract)),
                                                  Attr("mode", Text("handle_success"))]), e.store);
      var replied := match reply
        case Failed(x) => Failed(x)
        case Diverged => Diverged
        case Done(t) =>
          Done(Effect(AppResponse(e.resp.events + t.resp.events, t.resp.data), t.store, e.burned + t.burned));
      var silent := Done(Effect(AppResponse(e.resp.events, None), e.store, e.burned));
      RunSubMsg(env, fuel, contract, sub, s) == match sub.replyOn
                                                case Always => replied
                                                case OnSuccess => replied
                                                case OnError => silent
                                                case Never => silent
  {
    url := TypeUrl(sub.msg);
  }

  // ---- All submessages of a response ----

  /** The first submessages in turn, each on the store the one before it left. */
  ghost predicate InTurn(env: Env, fuel: nat, contract: Addr, msgs: seq<SubMsg>, s: Store, es: seq<Effect>) {
    && |es| <= |msgs|
    && forall i :: 0 <= i < |es| ==>
         RunSubMsg(env, fuel, contract, msgs[i], Left(s, es[..i])) == Done(es[i])
  }

  ghost function Left(s: Store, es: seq<Effect>): Store { if es == [] then s else es[|es| - 1].store }

  ghost function EventsOf(es: seq<Effect>): seq<Event> {
    if es == [] then [] else es[0].resp.events + EventsOf(es[1..])
  }

  ghost function BurnedBy(es: seq<Effect>): seq<Coin> { if es == [] then [] else es[0].burned + BurnedBy(es[1..]) }

  /** The data of the last of them that gives any, and `before` when none does. */
  ghost predicate LastData(before: Option<bytes>, es: seq<Effect>, data: Option<bytes>) {
    || (data == before && forall i :: 0 <= i < |es| ==> es[i].resp.data == None)
    || exists i :: 0 <= i < |es| && es[i].resp.data.Some? && data == es[i].resp.data
                   && forall j :: i < j < |es| ==> es[j].resp.data == None
  }

  /** What came of a response's submessages. */
  ghost predicate AllRun(env: Env, fuel: nat, contract: Addr, resp: AppResponse, msgs: seq<SubMsg>, s: Store,
                         es: seq<Effect>, out: Outcome<Effect>) {
    && InTurn(env, fuel, contract, msgs, s, es)
    && (|es| == |msgs| ==>
          && out.Done? && out.value.store == Left(s, es) && out.value.burned == BurnedBy(es)
          && out.value.resp.events == resp.events + EventsOf(es) && LastData(resp.data, es, out.value.resp.data))
    && (|es| < |msgs| ==> var next := RunSubMsg(env, fuel, contract, msgs[|es|], Left(s, es));
          !next.Done? && out == match next case Failed(e) => Failed(e) case _ => Diverged)
  }

  lemma LeftBehind(s: Store, r: Effect, es: seq<Effect>)
    ensures Left(s, [r] + es) == Left(r.store, es)
  {
    var all := [r] + es;
    assert all[|all| - 1] == if es == [] then r else es[|es| - 1];
  }

  lemma OneMoreInTurn(env: Env, fuel: nat, contract: Addr, msgs: seq<SubMsg>, s: Store, r: Effect, es: seq<Effect>)
    requires msgs != [] && RunSubMsg(env, fuel, contract, msgs[0], s) == Done(r)
    requires InTurn(env, fuel, contract, msgs[1..], r.store, es)
    ensures InTurn(env, fuel, contract, msgs, s, [r] + es)
  {
    var all := [r] + es;
    forall i | 0 <= i < |all| ensures RunSubMsg(env, fuel, contract, msgs[i], Left(s, all[..i])) == Done(all[i]) {
      if i == 0 {
        assert all[..0] == [];
      } else {
        var j := i - 1;
        assert all[..i] == [r] + es[..j] && msgs[i] == msgs[1..][j] && all[i] == es[j];
        LeftBehind(s, r, es[..j]);
        assert RunSubMsg(env, fuel, contract, msgs[1..][j], Left(r.store, es[..j])) == Done(es[j]);
      }
    }
  }

  lemma FirstInTurn(env: Env, fuel: nat, contract: Addr, resp: AppResponse, msgs: seq<SubMsg>, s: Store, r: Effect,
                    es: seq<Effect>, later: Outcome<Effect>, out: Outcome<Effect>)
    requires msgs != [] && RunSubMsg(env, fuel, contract, msgs[0], s) == Done(r)
    requires var data := if r.resp.data.Some? then r.resp.data else resp.data;
      AllRun(env, fuel, contract, AppResponse(resp.events + r.resp.events, data), msgs[1..], r.store, es, later)
    requires out == if later.Done? then Done(later.value.(burned := r.burned + later.value.burned)) else later
    ensures AllRun(env, fuel, contract, resp, msgs, s, [r] + es, out)
  {
    var all := [r] + es;
    OneMoreInTurn(env, fuel, contract, msgs, s, r, es);
    LeftBehind(s, r, es);
    if |all| == |msgs| {
      EventsInTurn(resp.events, r, es);
      DataInTurn(resp.data, r, es, out.value.resp.data);
    } else {
      assert msgs[|all|] == msgs[1..][|es|];
    }
  }

  lemma EventsInTurn(before: seq<Event>, r: Effect, es: seq<Effect>)
    ensures before + EventsOf([r] + es) == before + r.resp.events + EventsOf(es)
    ensures BurnedBy([r] + es) == r.burned + BurnedBy(es)
  {
    assert ([r] + es)[1..] == es;
    assert before + (r.resp.events + EventsOf(es)) == before + r.resp.events + EventsOf(es);
  }

  lemma DataInTurn(before: Option<bytes>, r: Effect, es: seq<Effect>, data: Option<bytes>)
    requires LastData(if r.resp.data.Some? then r.resp.data else before, es, data)
    ensures LastData(before, [r] + es, data)
  {
    var all := [r] + es;
    assert forall i :: 0 <= i < |es| ==> all[i + 1] == es[i];
    if exists i :: 0 <= i < |es| && es[i].resp.data.Some? && data == es[i].resp.data
                   && forall j :: i < j < |es| ==> es[j].resp.data == None {
      var i :| 0 <= i < |es| && es[i].resp.data.Some? && data == es[i].resp.data
               && forall j :: i < j < |es| ==> es[j].resp.data == None;
      assert all[i + 1].resp.data.Some?;
      forall j | i + 1 < j < |all| ensures all[j].resp.data == None { assert all[j] == es[j - 1]; }
    } else {
      forall j | 0 < j < |all| ensures all[j].resp.data == None { assert all[j] == es[j - 1]; }
      assert all[0] == r;
    }
  }

  /** All run, or the first that does not go through ends it: stores pass from one to
      the next, events pile up in order, and the last data given counts. */
  lemma {:induction false} SubmessagesRun(env: Env, fuel: nat, contract: Addr, resp: AppResponse, msgs: seq<SubMsg>,
                                          s: Store)
    returns (es: seq<Effect>)
    ensures AllRun(env, fuel, contract, resp, msgs, s, es, RunAll(env, fuel, contract, resp, msgs, s))
    decreases |msgs|
  {
    es := [];
    if msgs != [] {
      var first := RunSubMsg(env, fuel, contract, msgs[0], s);
      if first.Done? {
        var r := first.value;
        var next := AppResponse(resp.events + r.resp.events, if r.resp.data.Some? then r.resp.data else resp.data);
        var rest := SubmessagesRun(env, fuel, contract, next, msgs[1..], r.store);
        es := [r] + rest;
        FirstInTurn(env, fuel, contract, resp, msgs, s, r, rest,
                    RunAll(env, fuel, contract, next, msgs[1..], r.store), RunAll(env, fuel, contract, resp, msgs, s));
      }
    }
  }

  /** A batch of one is that message, and an empty one is nothing. */
  lemma BatchOfOne(env: Env, fuel: nat, sender: Addr, m: Msg, s: Store)
    ensures RunList(env, fuel, sender, [], s) == Done(([], s))
    ensures RunList(env, fuel, sender, [m], s) == match RunMsg(env, fuel, sender, m, s)
      case Failed(e) => Failed(e)
      case Diverged => Diverged
      case Done(r) => Done(([r.resp], r.store))
  {
    assert [m][1..] == [];
    var r := RunMsg(env, fuel, sender, m, s);
    if r.Done? { assert [r.value.resp] + [] == [r.value.resp]; }
  }
}
