/**
 The reference interpreter: messages run over a plain map, and a failed one is
 undone by going on with the map it started from.
 */
module Reference {
  import opened Bytes
  import opened Overlay
  import opened Bank
  import opened Messages

  /** A successful run: its response, the store it leaves and the coins its
      committed burns destroyed. */
  datatype Effect = Effect(resp: AppResponse, store: Store, burned: seq<Coin>)

  function MintTo(s: Store, to: Addr, cs: seq<Coin>): Outcome<Store> {
    if NormalizeAmount(cs).None? then Failed(EmptyCoins)
    else if !Loadable(s, to) then Failed(Undecodable)
    else
      var l := Mint(LedgerOf(s), to, cs);
      if l.None? then Failed(EmptyCoins) else Done(s[BalancePrefix() + to := Coins(BalanceOf(l.value, to))])
  }

  function BurnFrom(s: Store, from: Addr, cs: seq<Coin>): Outcome<Store> {
    if NormalizeAmount(cs).None? then Failed(EmptyCoins)
    else if !Loadable(s, from) then Failed(Undecodable)
    else
      var l := Burn(LedgerOf(s), from, cs);
      if l.None? then Failed(Insufficient) else Done(s[BalancePrefix() + from := Coins(BalanceOf(l.value, from))])
  }

  function SendCoins(s: Store, from: Addr, to: Addr, cs: seq<Coin>): Outcome<Store> {
    match BurnFrom(s, from, cs)
    case Done(t) => MintTo(t, to, cs)
    case Failed(e) => Failed(e)
    case Diverged => Diverged
  }

  /** `with_storage`: looks the contract up, runs its code, keeps its writes if
      it returns and if what it returns passes the response checks. */
  function CallContract(env: Env, s: Store, contract: Addr, call: Call): Outcome<(Response, Store)> {
    var key := RegistryPrefix() + contract;
    if !(key in s) then Failed(NoContract)
    else if !s[key].Contract? then Failed(Undecodable)
    else if !env.hasCode(s[key].codeId) then Failed(NoCode)
    else
      var ran := env.run(s[key].codeId, contract, call, s);
      match ran.result
      case Err(e) => Failed(e)
      case Ok(r) =>
        if !env.wellFormed(r) then Failed(BadResponse)
        else Done((r, Replay(LocatedAll(contract, ran.writes), s)))
  }

  function RunMsg(env: Env, fuel: nat, sender: Addr, msg: Msg, s: Store): Outcome<Effect>
    decreases fuel, 1, 0
  {
    match msg
    case BankSend(to, amount) =>
      (match SendCoins(s, sender, to, amount)
       case Done(t) => Done(Effect(AppResponse([TransferEvent(sender, to, amount)], None), t, []))
       case Failed(e) => Failed(e)
       case Diverged => Diverged)
    case BankBurn(amount) =>
      (match BurnFrom(s, sender, amount)
       case Done(t) => Done(Effect(AppResponse([], None), t, amount))
       case Failed(e) => Failed(e)
       case Diverged => Diverged)
    case WasmExecute(contract, m, funds) =>
      if !env.validAddr(contract) then Failed(BadAddress)
      else
        (match if funds == [] then Done(s) else SendCoins(s, sender, contract, funds)
         case Failed(e) => Failed(e)
         case Diverged => Diverged
         case Done(t) =>
           match RunEntry(env, fuel, contract, Call.Execute(sender, funds, m), ExecuteEvent(contract), t)
           case Failed(e) => Failed(e)
           case Diverged => Diverged
           case Done(r) =>
             var data := if r.resp.data.Some? then Some(env.encode(r.resp.data.value)) else None;
             Done(r.(resp := AppResponse(r.resp.events, data))))
    case Unrouted => Failed(NotRouted)
  }

  /** Calls a contract and then runs what it asks for. */
  function RunEntry(env: Env, fuel: nat, contract: Addr, call: Call, custom: Event, s: Store): Outcome<Effect>
    decreases fuel, 0, 0
  {
    match CallContract(env, s, contract, call)
    case Failed(e) => Failed(e)
    case Diverged => Diverged
    case Done(p) =>
      if fuel == 0 then Diverged
      else RunAll(env, fuel - 1, contract, BuildAppResponse(contract, custom, p.0), p.0.messages, p.1)
  }

  /** `process_response`: events pile up, the last data given replaces earlier data. */
  function RunAll(env: Env, fuel: nat, contract: Addr, resp: AppResponse, msgs: seq<SubMsg>, s: Store): Outcome<Effect>
    decreases fuel, 3, |msgs|
  {
    if msgs == [] then Done(Effect(resp, s, []))
    else
      match RunSubMsg(env, fuel, contract, msgs[0], s)
      case Failed(e) => Failed(e)
      case Diverged => Diverged
      case Done(r) =>
        var next := AppResponse(resp.events + r.resp.events, Or(r.resp.data, resp.data));
        match RunAll(env, fuel, contract, next, msgs[1..], r.store)
        case Failed(e) => Failed(e)
        case Diverged => Diverged
        case Done(t) => Done(t.(burned := r.burned + t.burned))
  }

  /** A failed submessage leaves `s` as it was; a caught failure is replied to there. */
  function RunSubMsg(env: Env, fuel: nat, contract: Addr, sub: SubMsg, s: Store): Outcome<Effect>
    decreases fuel, 2, 0
  {
    match RunMsg(env, fuel, contract, sub.msg, s)
    case Diverged => Diverged
    case Failed(e) =>
      if RepliesToErr(sub.replyOn) then
        RunEntry(env, fuel, contract, Call.Reply(sub.id, sub.payload, SubErr(e)), ReplyEvent(contract, false), s)
      else Failed(e)
    case Done(r) =>
      if RepliesToOk(sub.replyOn) then
        var result := SubOk(r.resp.events, r.resp.data, TypeUrl(sub.msg));
        var call := Call.Reply(sub.id, sub.payload, result);
        match RunEntry(env, fuel, contract, call, ReplyEvent(contract, true), r.store)
        case Failed(e) => Failed(e)
        case Diverged => Diverged
        case Done(t) =>
          Done(Effect(AppResponse(r.resp.events + t.resp.events, t.resp.data), t.store, r.burned + t.burned))
      else Done(r.(resp := AppResponse(r.resp.events, None)))
  }

  /** Messages run one after the other, all of them or none. */
  function RunList(env: Env, fuel: nat, sender: Addr, msgs: seq<Msg>, s: Store): Outcome<(seq<AppResponse>, Store)> {
    if msgs == [] then Done(([], s))
    else
      match RunMsg(env, fuel, sender, msgs[0], s)
      case Failed(e) => Failed(e)
      case Diverged => Diverged
      case Done(r) =>
        match RunList(env, fuel, sender, msgs[1..], r.store)
        case Failed(e) => Failed(e)
        case Diverged => Diverged
        case Done(p) => Done(([r.resp] + p.0, p.1))
  }
}
