/**
 Messages, responses and the chain's key layout, shared by the reference
 interpreter and the engine that runs over nested transactions.
 */
module Messages {
  import opened Bytes
  import opened Overlay
  import opened Namespaces
  import opened Bank

  type Addr = a: bytes | |a| <= 255

  datatype AttrValue = Text(text: string) | Address(addr: Addr) | Amounts(coins: seq<Coin>) | Bytes(data: bytes)
  datatype Attr = Attr(key: string, value: AttrValue)
  datatype Event = Event(ty: string, attributes: seq<Attr>)

  datatype AppResponse = AppResponse(events: seq<Event>, data: Option<bytes>)

  datatype Msg =
    | BankSend(to: Addr, amount: seq<Coin>)
    | BankBurn(amount: seq<Coin>)
    | WasmExecute(contract: Addr, msg: bytes, funds: seq<Coin>)
    | Unrouted

  datatype ReplyOn = Always | OnSuccess | OnError | Never

  datatype SubMsg = SubMsg(id: nat, payload: bytes, msg: Msg, replyOn: ReplyOn)

  /** What a contract's entry point returns. */
  datatype Response = Response(messages: seq<SubMsg>, attributes: seq<Attr>, events: seq<Event>, data: Option<bytes>)

  datatype Error = EmptyCoins | Insufficient | Undecodable | NoContract | NoCode | BadAddress | BadResponse
                 | NotRouted | ByContract(text: string)

  datatype Result<+T> = Ok(value: T) | Err(error: Error)

  datatype SubResult = SubOk(events: seq<Event>, data: Option<bytes>, typeUrl: string) | SubErr(error: Error)

  datatype Call = Execute(sender: Addr, funds: seq<Coin>, msg: bytes)
                | Reply(id: nat, payload: bytes, result: SubResult)

  /** One run of contract code: its writes to its own storage, and its result. */
  datatype Ran = Ran(writes: seq<Op<bytes>>, result: Result<Response>)

  datatype Value = Coins(coins: seq<Coin>) | Contract(codeId: nat) | Raw(data: bytes)
  type Store = map<bytes, Value>

  /** What stays fixed while a message runs. Contract code is any function of
      the call and of the chain as it stands when the call is made. */
  datatype Env = Env(
    run: (nat, Addr, Call, Store) -> Ran,
    hasCode: nat -> bool,
    validAddr: Addr -> bool,
    wellFormed: Response -> bool,
    encode: bytes -> bytes)

  /** The outcome of running a message with bounded depth. */
  datatype Outcome<+T> = Done(value: T) | Failed(error: Error) | Diverged

  // ---- Keys ----

  const BANK: bytes := [98, 97, 110, 107]
  const BALANCES: bytes := [98, 97, 108, 97, 110, 99, 101, 115]
  const WASM: bytes := [119, 97, 115, 109]
  const CONTRACTS: bytes := [99, 111, 110, 116, 114, 97, 99, 116, 115]
  const CONTRACT_DATA: bytes := [99, 111, 110, 116, 114, 97, 99, 116, 95, 100, 97, 116, 97, 47]

  const BALANCES_PATH: seq<bytes> := [BANK, BALANCES]
  const REGISTRY_PATH: seq<bytes> := [WASM, CONTRACTS]

  ghost predicate Spells(b: bytes, s: string) { |b| == |s| && forall i :: 0 <= i < |b| ==> b[i] == s[i] as int }

  lemma KeysAreSpelled()
    ensures Spells(BANK, "bank") && Spells(BALANCES, "balances") && Spells(WASM, "wasm")
    ensures Spells(CONTRACTS, "contracts") && Spells(CONTRACT_DATA, "contract_data/")
    ensures BALANCES_PATH == [BANK, BALANCES] && REGISTRY_PATH == [WASM, CONTRACTS]
    ensures forall c: Addr :: ContractPath(c) == [WASM, CONTRACT_DATA + c]
  {
  }

  function ContractPath(contract: Addr): (p: seq<bytes>)
    ensures AllEncodable(p) && |p| == 2
  {
    [WASM, CONTRACT_DATA + contract]
  }

  function BalancePrefix(): bytes { Nested(BALANCES_PATH) }
  function RegistryPrefix(): bytes { Nested(REGISTRY_PATH) }
  function ContractPrefix(contract: Addr): bytes { Nested(ContractPath(contract)) }

  /** A contract's storage is neither the ledger's, nor the registry's, nor
      another contract's. */
  lemma ContractPathsApart(c: Addr)
    ensures ContractPath(c) != BALANCES_PATH && ContractPath(c) != REGISTRY_PATH
    ensures forall e: Addr :: ContractPath(e) == ContractPath(c) ==> e == c
  {
    assert ContractPath(c)[0] == WASM && BALANCES_PATH[0] == BANK && WASM[0] != BANK[0];
    assert ContractPath(c)[1] == CONTRACT_DATA + c && REGISTRY_PATH[1] == CONTRACTS;
    assert (CONTRACT_DATA + c)[8] != CONTRACTS[8];
    forall e: Addr | ContractPath(e) == ContractPath(c) ensures e == c {
      assert ContractPath(e)[1] == CONTRACT_DATA + e;
      assert (CONTRACT_DATA + e)[|CONTRACT_DATA|..] == e && (CONTRACT_DATA + c)[|CONTRACT_DATA|..] == c;
    }
  }

  /** A contract's storage never has the one name that bounds nothing, and the only
      complete keys that could trip a range over it would be raw keys of the wasm
      module. */
  lemma ContractRangesAreExact(c: Addr, b: seq<bytes>)
    ensures Bounded(ContractPath(c))
    ensures Apart(ContractPath(c), b) <==> b != [] && b != [WASM]
  {
    var p := ContractPath(c);
    var name := LengthPrefixed(p[1]);
    assert name[2] == CONTRACT_DATA[0] != 255;
    assert b < p && b != [] ==> b == p[..|b|] && |b| == 1;
    assert p[..1] == [WASM];
  }

  // ---- The ledger inside a store ----

  /** The stored balances, by account. */
  function LedgerOf(s: Store): Ledger<bytes> {
    var sub := Sub(s, BalancePrefix());
    map a | a in sub && sub[a].Coins? :: sub[a].coins
  }

  /** Everything stored under the balances is one, in canonical form. */
  ghost predicate BankValid(s: Store) {
    var sub := Sub(s, BalancePrefix());
    forall a :: a in sub ==> sub[a].Coins? && Canonical(sub[a].coins)
  }

  /** A balance that is missing or can be read back. */
  predicate Loadable(s: Store, a: Addr) {
    BalancePrefix() + a in s ==> s[BalancePrefix() + a].Coins?
  }

  // ---- Responses ----

  function TransferEvent(from: Addr, to: Addr, amount: seq<Coin>): Event {
    Event("transfer", [Attr("recipient", Address(to)), Attr("sender", Address(from)), Attr("amount", Amounts(amount))])
  }

  function ContractAttr(contract: Addr): Attr { Attr("_contract_address", Address(contract)) }

  function Wasmed(contract: Addr, events: seq<Event>): seq<Event> {
    seq(|events|, i requires 0 <= i < |events| =>
      Event("wasm-" + events[i].ty, [ContractAttr(contract)] + events[i].attributes))
  }

  /** The entry point's own event, then its attributes, then its events. */
  function BuildAppResponse(contract: Addr, custom: Event, r: Response): AppResponse {
    AppResponse(
      [custom]
      + (if r.attributes == [] then [] else [Event("wasm", [ContractAttr(contract)] + r.attributes)])
      + Wasmed(contract, r.events),
      r.data)
  }

  function Or(a: Option<bytes>, b: Option<bytes>): Option<bytes> { if a.Some? then a else b }

  function ExecuteEvent(contract: Addr): Event { Event("execute", [ContractAttr(contract)]) }

  function ReplyEvent(contract: Addr, ok: bool): Event {
    Event("reply", [ContractAttr(contract), Attr("mode", Text(if ok then "handle_success" else "handle_failure"))])
  }

  function TypeUrl(m: Msg): string {
    match m
    case BankSend(_, _) => "/cosmos.bank.v1beta1.MsgSendResponse"
    case BankBurn(_) => "/cosmos.bank.v1beta1.MsgBurnResponse"
    case WasmExecute(_, _, _) => "/cosmwasm.wasm.v1.MsgExecuteContractResponse"
    case Unrouted => "/unknown"
  }

  function RepliesToOk(r: ReplyOn): bool { r == Always || r == OnSuccess }
  function RepliesToErr(r: ReplyOn): bool { r == Always || r == OnError }

  /** A contract's write, as the store sees it. */
  function Located(contract: Addr, op: Op<bytes>): Op<Value> {
    match op
    case Set(k, v) => Op.Set(ContractPrefix(contract) + k, Raw(v))
    case Delete(k) => Op.Delete(ContractPrefix(contract) + k)
  }

  function LocatedAll(contract: Addr, ops: seq<Op<bytes>>): seq<Op<Value>> {
    seq(|ops|, i requires 0 <= i < |ops| => Located(contract, ops[i]))
  }
}
