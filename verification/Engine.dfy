/**
 The message engine: bank, wasm and router code over nested storage
 transactions, proved to do what the reference interpreter does.
 */
module Engine {
  import opened Bytes
  import opened Overlay
  import opened Namespaces
  import opened Bank
  import opened Messages
  import Ref = Reference

  /** A stored balance is what the ledger says. */
  lemma LedgerLookup(s: Store, a: Addr)
    ensures a in LedgerOf(s) <==> BalancePrefix() + a in s && s[BalancePrefix() + a].Coins?
    ensures a in LedgerOf(s) ==> LedgerOf(s)[a] == s[BalancePrefix() + a].coins
  {
    SubKeys(s, BalancePrefix(), a);
  }

  /** The engine's outcome and the store it shows are the reference's. */
  ghost predicate Agrees(r: Outcome<AppResponse>, view: Store, ref: Outcome<Ref.Effect>) {
    match ref
    case Done(e) => r == Done(e.resp) && view == e.store
    case Failed(x) => r == Failed(x)
    case Diverged => r.Diverged?
  }

  ghost predicate AgreesBank(r: Outcome<()>, view: Store, ref: Outcome<Store>) {
    match ref
    case Done(s) => r.Done? && view == s
    case Failed(x) => r == Failed(x)
    case Diverged => r.Diverged?
  }

  class App {
    const env: Env
    const storage: StorageStack<Value>

    constructor (env: Env, storage: StorageStack<Value>)
      ensures this.env == env && this.storage == storage
    {
      this.env, this.storage := env, storage;
    }

    // ---- Bank ----

    method GetBalance(a: Addr) returns (r: Outcome<seq<Coin>>)
      requires storage.Valid()
      ensures var s := storage.View();
        r == if Loadable(s, a) then Done(BalanceOf(LedgerOf(s), a)) else Failed(Undecodable)
    {
      LedgerLookup(storage.View(), a);
      var v := storage.Get(BalancePrefix() + a);
      r := match v
           case None => Done([])
           case Some(Coins(c)) => Done(c)
           case Some(_) => Failed(Undecodable);
    }

    method MintTo(to: Addr, cs: seq<Coin>) returns (r: Outcome<()>)
      requires storage.Valid()
      modifies storage
      ensures storage.Valid() && |storage.layers| == old(|storage.layers|) && storage.Below() == old(storage.Below())
      ensures storage.layers != [] ==> storage.root == old(storage.root)
      ensures AgreesBank(r, storage.View(), Ref.MintTo(old(storage.View()), to, cs))
    {
      var amount := NormalizeAmount(cs);
      if amount.None? { return Failed(EmptyCoins); }
      var b := GetBalance(to);
      if !b.Done? { return Failed(Undecodable); }
      storage.Set(BalancePrefix() + to, Coins(Normalize(AddAll(b.value, amount.value))));
      r := Done(());
    }

    method BurnFrom(from: Addr, cs: seq<Coin>) returns (r: Outcome<()>)
      requires storage.Valid()
      modifies storage
      ensures storage.Valid() && |storage.layers| == old(|storage.layers|) && storage.Below() == old(storage.Below())
      ensures storage.layers != [] ==> storage.root == old(storage.root)
      ensures AgreesBank(r, storage.View(), Ref.BurnFrom(old(storage.View()), from, cs))
    {
      var amount := NormalizeAmount(cs);
      if amount.None? { return Failed(EmptyCoins); }
      var b := GetBalance(from);
      if !b.Done? { return Failed(Undecodable); }
      var rest := SubAll(b.value, amount.value);
      if rest.None? { return Failed(Insufficient); }
      storage.Set(BalancePrefix() + from, Coins(Normalize(rest.value)));
      r := Done(());
    }

    method SendCoins(from: Addr, to: Addr, cs: seq<Coin>) returns (r: Outcome<()>)
      requires storage.Valid()
      modifies storage
      ensures storage.Valid() && |storage.layers| == old(|storage.layers|) && storage.Below() == old(storage.Below())
      ensures storage.layers != [] ==> storage.root == old(storage.root)
      ensures AgreesBank(r, storage.View(), Ref.SendCoins(old(storage.View()), from, to, cs))
    {
      r := BurnFrom(from, cs);
      if r.Done? {
        r := MintTo(to, cs);
      }
    }

    // ---- Wasm ----

    /** `with_storage` and the response checks: the code writes to a cache of
        its own, through its namespace, and the cache is committed if it returns. */
    method CallContract(contract: Addr, call: Call) returns (r: Outcome<Response>)
      requires storage.Valid() && storage.layers != []
      modifies storage
      ensures storage.Valid() && |storage.layers| == old(|storage.layers|) && storage.Below() == old(storage.Below())
      ensures storage.root == old(storage.root)
      ensures match Ref.CallContract(env, old(storage.View()), contract, call)
        case Done(p) => r == Done(p.0) && storage.View() == p.1
        case Failed(e) => r == Failed(e)
        case Diverged => r.Diverged?
    {
      var data := storage.Get(RegistryPrefix() + contract);
      if data.None? { return Failed(NoContract); }
      if !data.value.Contract? { return Failed(Undecodable); }
      if !env.hasCode(data.value.codeId) { return Failed(NoCode); }
      storage.Begin();
      var snapshot := Snapshot();
      var ran := env.run(data.value.codeId, contract, call, snapshot);
      WriteAll(contract, ran.writes);
      match ran.result {
        case Err(e) =>
          storage.Rollback();
          r := Failed(e);
        case Ok(resp) =>
          storage.Commit();
          r := if env.wellFormed(resp) then Done(resp) else Failed(BadResponse);
      }
    }

    /** One write by a contract, through its own namespace. */
    method WriteOne(contract: Addr, op: Op<bytes>)
      requires storage.Valid() && storage.layers != []
      modifies storage
      ensures storage.Valid() && |storage.layers| == old(|storage.layers|) && storage.Below() == old(storage.Below())
      ensures storage.root == old(storage.root)
      ensures storage.View() == Apply(Located(contract, op), old(storage.View()))
    {
      var own := new PrefixedStorage<Value>.Multilevel(storage, ContractPath(contract));
      match op
      case Set(k, v) => own.Set(k, Raw(v));
      case Delete(k) => own.Remove(k);
    }

    method WriteAll(contract: Addr, writes: seq<Op<bytes>>)
      requires storage.Valid() && storage.layers != []
      modifies storage
      ensures storage.Valid() && |storage.layers| == old(|storage.layers|) && storage.Below() == old(storage.Below())
      ensures storage.root == old(storage.root)
      ensures storage.View() == Replay(LocatedAll(contract, writes), old(storage.View()))
    {
      ghost var log := LocatedAll(contract, writes);
      var i := 0;
      while i < |writes|
        invariant 0 <= i <= |writes|
        invariant storage.Valid() && |storage.layers| == old(|storage.layers|)
        invariant storage.Below() == old(storage.Below())
        invariant storage.root == old(storage.root)
        invariant storage.View() == Replay(log[..i], old(storage.View()))
      {
        assert log[..i + 1][..i] == log[..i];
        WriteOne(contract, writes[i]);
        i := i + 1;
      }
      assert log[..i] == log;
    }

    /** The whole chain as contract code can read it through queries. */
    method Snapshot() returns (s: Store)
      requires storage.Valid()
      ensures s == storage.View()
    {
      var entries := storage.Range(None, None, Ascending);
      s := ToMap(entries);
      assert Within(storage.View(), None, None) == storage.View();
    }

    /** `Router::execute` */
    method Route(fuel: nat, sender: Addr, msg: Msg) returns (r: Outcome<AppResponse>)
      requires storage.Valid() && storage.layers != []
      modifies storage
      ensures storage.Valid() && |storage.layers| == old(|storage.layers|) && storage.Below() == old(storage.Below())
      ensures storage.root == old(storage.root)
      ensures Agrees(r, storage.View(), Ref.RunMsg(env, fuel, sender, msg, old(storage.View())))
      decreases fuel, 1, 0
    {
      match msg
      case BankSend(to, amount) =>
        var done := SendCoins(sender, to, amount);
        r := match done
             case Done(_) => Done(AppResponse([TransferEvent(sender, to, amount)], None))
             case Failed(e) => Failed(e)
             case Diverged => Diverged;
      case BankBurn(amount) =>
        var done := BurnFrom(sender, amount);
        r := match done
             case Done(_) => Done(AppResponse([], None))
             case Failed(e) => Failed(e)
             case Diverged => Diverged;
      case WasmExecute(contract, m, funds) =>
        if !env.validAddr(contract) { return Failed(BadAddress); }
        if funds != [] {
          var moved := SendCoins(sender, contract, funds);
          if moved.Failed? { return Failed(moved.error); }
          if moved.Diverged? { return Diverged; }
        }
        r := EnterContract(fuel, contract, Call.Execute(sender, funds, m), ExecuteEvent(contract));
        if r.Done? && r.value.data.Some? {
          r := Done(AppResponse(r.value.events, Some(env.encode(r.value.data.value))));
        }
      case Unrouted =>
        r := Failed(NotRouted);
    }

    /** The part `execute_wasm` and `reply` share: call, collect, process. */
    method EnterContract(fuel: nat, contract: Addr, call: Call, custom: Event) returns (r: Outcome<AppResponse>)
      requires storage.Valid() && storage.layers != []
      modifies storage
      ensures storage.Valid() && |storage.layers| == old(|storage.layers|) && storage.Below() == old(storage.Below())
      ensures storage.root == old(storage.root)
      ensures Agrees(r, storage.View(), Ref.RunEntry(env, fuel, contract, call, custom, old(storage.View())))
      decreases fuel, 0, 0
    {
      var res := CallContract(contract, call);
      match res
      case Failed(e) => r := Failed(e);
      case Diverged => r := Diverged;
      case Done(response) =>
        if fuel == 0 {
          r := Diverged;
        } else {
          r := ProcessResponse(fuel - 1, contract, BuildAppResponse(contract, custom, response), response.messages);
        }
    }

    method ProcessResponse(fuel: nat, contract: Addr, resp: AppResponse, msgs: seq<SubMsg>)
      returns (r: Outcome<AppResponse>)
      requires storage.Valid() && storage.layers != []
      modifies storage
      ensures storage.Valid() && |storage.layers| == old(|storage.layers|) && storage.Below() == old(storage.Below())
      ensures storage.root == old(storage.root)
      ensures Agrees(r, storage.View(), Ref.RunAll(env, fuel, contract, resp, msgs, old(storage.View())))
      decreases fuel, 3, |msgs|
    {
      if msgs == [] {
        r := Done(resp);
      } else {
        r := ExecuteSubMsg(fuel, contract, msgs[0]);
        if r.Done? {
          var next := AppResponse(resp.events + r.value.events, Or(r.value.data, resp.data));
          r := ProcessResponse(fuel, contract, next, msgs[1..]);
        }
      }
    }

    /** Runs a submessage in a transaction of its own, then replies. */
    method ExecuteSubMsg(fuel: nat, contract: Addr, sub: SubMsg) returns (r: Outcome<AppResponse>)
      requires storage.Valid() && storage.layers != []
      modifies storage
      ensures storage.Valid() && |storage.layers| == old(|storage.layers|) && storage.Below() == old(storage.Below())
      ensures storage.root == old(storage.root)
      ensures Agrees(r, storage.View(), Ref.RunSubMsg(env, fuel, contract, sub, old(storage.View())))
      ensures sub.replyOn in {Never, OnSuccess} ==>
        match Ref.RunMsg(env, fuel, contract, sub.msg, old(storage.View()))
        case Failed(e) => r == Failed(e) && storage.View() == old(storage.View())
        case _ => true
      decreases fuel, 2, 0
    {
      var ran := Transactional(fuel, contract, sub.msg);
      match ran
      case Diverged =>
        r := Diverged;
      case Failed(e) =>
        if RepliesToErr(sub.replyOn) {
          r := EnterContract(fuel, contract, Call.Reply(sub.id, sub.payload, SubErr(e)), ReplyEvent(contract, false));
        } else {
          r := Failed(e);
        }
      case Done(resp) =>
        if RepliesToOk(sub.replyOn) {
          var result := SubOk(resp.events, resp.data, TypeUrl(sub.msg));
          r := EnterContract(fuel, contract, Call.Reply(sub.id, sub.payload, result), ReplyEvent(contract, true));
          if r.Done? {
            r := Done(AppResponse(resp.events + r.value.events, r.value.data));
          }
        } else {
          r := Done(AppResponse(resp.events, None));
        }
    }

    /** `transactional`: commits on success; otherwise nothing has happened. */
    method Transactional(fuel: nat, sender: Addr, msg: Msg) returns (r: Outcome<AppResponse>)
      requires storage.Valid() && storage.layers != []
      modifies storage
      ensures storage.Valid() && |storage.layers| == old(|storage.layers|) && storage.Below() == old(storage.Below())
      ensures storage.root == old(storage.root)
      ensures Agrees(r, storage.View(), Ref.RunMsg(env, fuel, sender, msg, old(storage.View())))
      ensures !r.Done? ==> storage.View() == old(storage.View())
      decreases fuel, 1, 1
    {
      storage.Begin();
      r := Route(fuel, sender, msg);
      if r.Done? {
        storage.Commit();
      } else {
        storage.Rollback();
      }
    }

    /** `App::execute_multi`: all messages commit together, or none does. */
    method ExecuteMulti(fuel: nat, sender: Addr, msgs: seq<Msg>) returns (r: Outcome<seq<AppResponse>>)
      requires storage.Valid() && storage.layers == []
      modifies storage
      ensures storage.Valid() && storage.layers == []
      ensures match Ref.RunList(env, fuel, sender, msgs, old(storage.root))
        case Done(p) => r == Done(p.0) && storage.root == p.1
        case Failed(e) => r == Failed(e) && storage.root == old(storage.root)
        case Diverged => r.Diverged? && storage.root == old(storage.root)
    {
      storage.Begin();
      var i, out := 0, [];
      assert msgs[0..] == msgs;
      PrependNone(Ref.RunList(env, fuel, sender, msgs, storage.View()));
      while i < |msgs|
        invariant 0 <= i <= |msgs|
        invariant storage.Valid() && |storage.layers| == 1 && storage.root == old(storage.root)
        invariant Ref.RunList(env, fuel, sender, msgs, old(storage.root))
               == Prepend(out, Ref.RunList(env, fuel, sender, msgs[i..], storage.View()))
      {
        var one := Route(fuel, sender, msgs[i]);
        assert msgs[i..][1..] == msgs[i + 1..];
        if !one.Done? {
          storage.Rollback();
          return if one.Failed? then Failed(one.error) else Diverged;
        }
        PrependOne(out, one.value, Ref.RunList(env, fuel, sender, msgs[i + 1..], storage.View()));
        out := out + [one.value];
        i := i + 1;
      }
      assert out + [] == out;
      storage.Commit();
      r := Done(out);
    }
  }

  ghost function Prepend(out: seq<AppResponse>, r: Outcome<(seq<AppResponse>, Store)>)
    : Outcome<(seq<AppResponse>, Store)>
  {
    match r
    case Done(p) => Done((out + p.0, p.1))
    case Failed(e) => Failed(e)
    case Diverged => Diverged
  }

  lemma PrependNone(r: Outcome<(seq<AppResponse>, Store)>)
    ensures Prepend([], r) == r
  {
    if r.Done? { assert [] + r.value.0 == r.value.0; }
  }

  lemma PrependOne(out: seq<AppResponse>, x: AppResponse, r: Outcome<(seq<AppResponse>, Store)>)
    ensures Prepend(out + [x], r) == Prepend(out, Prepend([x], r))
  {
    if r.Done? { assert out + [x] + r.value.0 == out + ([x] + r.value.0); }
  }
}
