# cw-multi-test, modelled and proved

This project models the parts of cw-multi-test that carry its promises: the
cache that makes messages atomic, the interpreter that runs trees of
submessages over it, the namespaces that keep modules apart, the bank, the
staking module's rounded arithmetic, and the IBC module of two chains with a
relayer between them. What the program updates in place is a class whose methods
are proved against value functions; what it promises is then proved of those
functions, over every input or every run.

## How the files fit together

| files | what they hold |
|---|---|
| `Bytes`, `Sums`, `Results` | byte order, sums over maps, outcomes |
| `Overlay` | `StorageTransaction`, its operation log and the merging range iterator, nested to any depth |
| `Namespaces` | length-prefixed namespaces, the "+1 with carry" upper bound, `PrefixedStorage` |
| `Bank` | coin lists, the ledger, mint, burn, send, the supply query |
| `Messages`, `Reference` | messages and a naive interpreter that snapshots and restores a plain map |
| `Engine`, `EngineLaws`, `EngineOutcomes` | the real interpreter over nested transactions, what holds of it over whole trees, and what each message does to accounts, replies, events and data |
| `Decimals` | 18-digit fixed point with every rounding written out; reward accrual |
| `Staking`, `StakeKeeper` | the staking module as value functions, and as methods over mutable state |
| `StakingBooks`, `StakingLaws`, `StakingRewards`, `StakingMessages` | drift under slashing, solvency, the unbonding queue, rewards, panics, what each message moves |
| `StakingClaims`, `StakingOutcomes` | what every delegator has earned and who keeps it; slashes and blocks in numbers |
| `Ibc`, `IbcModule` | the IBC module and ICS-020 bank handlers, as value functions and as methods |
| `IbcLaws`, `IbcOutcomes` | handshakes and packet life cycle; what each message needs and leaves |
| `IbcWorld`, `Relayer` | agreement of two chains, the relayer's drivers |
| `Escrow`, `EscrowLaws`, `EscrowRuns` | escrow backing over two chains, for a denomination native to one of them |
| `EscrowHub` | the same for one chain and any number of others around it |
| `EscrowJoint`, `EscrowRefunds` | escrow for a denomination both chains may have, and which late packets are refunded |

## Main results

* **Interpreter refinement.** Running any tree of messages through nested
  storage transactions gives the same outcome, events, data and store as the
  reference interpreter; a reply to a failed submessage therefore runs on exactly
  the store before it. Supply falls by exactly the committed burns, contracts
  write nowhere but their own storage, a batch is its parts in sequence.
* **Payments and replies.** A bank send or the funds of a call move, account by
  account, just the listed coins, exactly when the sender has them, before the contract
  runs. A failed submessage is replied to under `OnError` and `Always` and is the
  caller's own failure otherwise; a successful one under `OnSuccess` and `Always`.
* **Overlay and log.** The iterator yields exactly the sorted entries of the base
  overridden by the cache, at any nesting, for any bounds, inverted ones included;
  replaying the logs inner to outer gives exactly the view.
* **Namespaces.** Prefix freedom, isolation, and exactly which keys a prefixed
  range returns or panics on; over a store whose keys all start with a complete
  path of names a range is always exact.
* **Accrual.** However many times a validator's rewards are updated on the way, a
  delegator's stored rewards end up within a few atoms per extra update of what one
  update at the end stores: one, and one for each time over, rounded up, that its
  shares are the validator's stake. That is two while it has no more shares than the
  validator has stake, as without slashing; after a slash it can be more.
* **Claims.** What a delegator has earned, in numbers (the stake's yearly part over the
  whole seconds gone by, less the validator's commission, divided by stake), is what the
  query shows. No slash that leaves stake, and no delegation, undelegation or
  redelegation, changes anybody's claim, except that whoever gives up the last share
  loses it; a withdrawal settles one claim and keeps all others.
* **Drift.** After k slashes since a wipe-out the delegators' shares are more than
  -k*n atoms and less than k tokens away from the validator's stake (plus one
  token per forgotten delegation below), and equal to it when k is 0.
* **Solvency.** The staking module's account holds, on every run, what it began with
  and what came in from elsewhere, less what it paid elsewhere and delegated itself,
  on top of all stakes and queued unbondings; exactly so without slashing. So as long
  as it pays out and delegates no more than is its own, `update_block` never panics,
  and every block pays exactly what fell due.
* **Two chains.** Both ends of a channel the relayer creates agree on every packet
  under any interleaving, and what the relayer does with a packet is such a run.
* **Lateness.** From a packet's height or its time on, either bound alone, no delivery
  changes the ledger, the vouchers or the acknowledgements; before both it is in time.
* **Escrow.** For a denomination native to one chain, its lock account covers
  everything under way, circulating as vouchers elsewhere and coming back, summed over
  any number of channels to other chains; so a return is always unlocked, and a late
  transfer is refunded exactly when the coin sent was not a voucher of the channel and
  its sender's address is valid. For a denomination both chains have, neither lock
  account covers its own part, but the two together always cover all of it.

## Where the code and its comments part ways

* `src/prefixed_storage/namespace_helpers.rs:64-66` says a prefix of all 0xFF bytes
  cannot occur. The 65535-byte namespace of 0xFF bytes encodes to one; its upper
  bound is all zeros and an open-ended range over it is empty
  (`Namespaces.AllFFNamespace`, `Namespaces.PrefixedStorage.Range`).
* `src/staking.rs:352` and `src/staking.rs:516` expect every staker to have an entry
  in `STAKES`. `process_queue` can remove that entry alone
  (`src/staking.rs:596-604`). `StakingRewards.SafeExactlyWhenNobodyMissing` gives the
  states in which the expectation cannot fail, and
  `StakingRewards.AForgottenDelegationPanics` a run on which it does.
* `src/bank.rs:448` promises funds back on a timeout. It pays them if and only if the
  sender's address is valid, the amount positive, and the lock account holds that much
  of the denomination the packet names, whoever put it there (`Escrow.RefundedExactly`). When the
  denomination is native to one of the two chains, that is so exactly when the coin was
  not registered as a voucher of that channel when it was sent
  (`EscrowRefunds.RefundedExactlyWhenNotAVoucher`): a voucher's packet names the
  original denomination, which the lock account there does not hold.
  `EscrowRefunds.AVoucherCanBeStranded` gives a run on which that happens. When both
  chains have the denomination, a native coin can be stranded as well, because the
  other chain's own coins, coming in, are paid out of the lock account:
  `EscrowRefunds.ANativeCoinCanBeStranded` gives the run; and by the same condition a
  late voucher is then paid, in coins locked for others.
* `src/staking.rs:684-694` takes delegations from any account. The module account's
  own delegation is a payment to itself and raises what it owes; it leaves the
  account short exactly when it is larger than the account's surplus
  (`StakingMessages.SelfDelegationOverspends`), and
  `StakingMessages.TheModuleAccountCanOverspend` reaches such a state. Every other
  delegator pays for the stake it adds (`StakingLaws.DelegateSolvent`), and nothing but
  this and payments made elsewhere from the account ever takes from its surplus
  (`StakingLaws.OnlySpendingCosts`).
* `src/staking.rs:737-767` takes a redelegation from a validator to itself. One of all
  the delegator has there forgets what it had earned, because the last share goes before
  the new one comes (`StakingClaims.RedelegatingAllToItselfForgets`).

## Model

| member | source | states |
|---|---|---|
| `Overlay.ReplayIsOverride` | src/transactions.rs:90-127 | replaying the operation log on any base gives the base overridden by the last operation on each key, which is what the cache holds |
| `Overlay.ReplayConcat` | src/transactions.rs:117-127 | logs replayed one after the other are their concatenation replayed |
| `Overlay.ViewReplaysLogs` | src/transactions.rs:47-127 | what a stack of transactions shows is the root with all logs replayed in order, outer first, so committing inner to outer loses nothing |
| `Overlay.RangeUnique` | src/transactions.rs:61-88 | sorted entries within bounds are determined by the map: two correct ranges are equal |
| `Overlay.RangeMeans` | src/transactions.rs:61-88 | what such a range is, entry by entry: keys rise, or fall in descending order, the start is included and the end is not |
| `Overlay.LocalRange` | src/transactions.rs:66-80 | a range over the cache is its entries in order for any bounds; inverted bounds give none instead of a panic |
| `Overlay.MergeOverlay.constructor` | src/transactions.rs:185-190 | what remains is the right side overridden by the left, deletions removed |
| `Overlay.MergeOverlay.Next` | src/transactions.rs:229-244 | yields the least remaining record of base overridden by cache and takes just that key away; none exactly when nothing remains |
| `Overlay.MergeOverlay.PickMatch` | src/transactions.rs:193-210 | the same, when both sides have a record, equal keys included |
| `Overlay.MergeOverlay.TakeLeft` | src/transactions.rs:213-219 | the same, when the cache comes first; a deleted entry is skipped, and iteration still terminates |
| `Overlay.MergeOverlay.Drain` | src/transactions.rs:222-246 | the iterator in full: the sorted entries of the overridden map, each key once |
| `Overlay.StorageStack.Get` | src/transactions.rs:48-59 | reads the key of the view through all nested caches |
| `Overlay.StorageStack.Set` | src/transactions.rs:90-97 | the view with the key set; nothing below the top changes |
| `Overlay.StorageStack.Remove` | src/transactions.rs:99-102 | the view without the key; nothing below the top changes |
| `Overlay.StorageStack.Range` | src/transactions.rs:61-88 | exactly the view within bounds, in order, at any nesting depth |
| `Overlay.StorageStack.Begin` | src/transactions.rs:13-16 | a new transaction shows what its base shows |
| `Overlay.StorageStack.Commit` | src/transactions.rs:17-20 | committing the innermost transaction leaves the view unchanged, one level up |
| `Overlay.StorageStack.Rollback` | src/transactions.rs:13-21 | dropping it restores the view below, untouched |
| `Overlay.StorageStack.CommitAll` | src/transactions.rs:122-127 | committing all of them puts the view into the root |
| `Namespaces.LengthPrefixedUnique` | src/prefixed_storage/length_prefixed.rs:12-20 | a length-prefixed name and what follows it can be read back in one way only |
| `Namespaces.ToLengthPrefixedNested` | src/prefixed_storage/length_prefixed.rs:23-36 | the loop builds the concatenation of all prefixed names, in order |
| `Namespaces.NestedPrefixIff` | src/prefixed_storage/length_prefixed.rs:23-36 | one nested namespace is a prefix of another exactly when its list of names is |
| `Namespaces.NestedUnique` | src/prefixed_storage/length_prefixed.rs:23-44 | of two namespaces of equal depth, neither key space meets the other unless the names are equal |
| `Namespaces.NamespaceUpperBound` | src/prefixed_storage/namespace_helpers.rs:67-80 | the carry loop on the buffer computes the upper bound and terminates |
| `Namespaces.UpperBoundExact` | src/prefixed_storage/namespace_helpers.rs:67-80 | a key lies between a prefix that is not all 0xFF and its upper bound exactly when it has the prefix or is one of the shorter keys described |
| `Namespaces.AllFFBoundsNothing` | src/prefixed_storage/namespace_helpers.rs:64-80 | for a prefix of all 0xFF the bound excludes every key |
| `Namespaces.AllFFNamespace` | src/prefixed_storage/length_prefixed.rs:12-44 | the namespace of 65535 bytes 0xFF, and only it, has such a prefix |
| `Namespaces.CompleteKeysAreNotShort` | src/prefixed_storage/length_prefixed.rs:23-44 | a key that starts with a complete path of names, of any depth, is never one of those shorter keys, unless its path is a proper prefix of the namespace's own or that namespace ends in the all-0xFF name |
| `Namespaces.CompleteStoresHaveNoShorts` | src/prefixed_storage/namespace_helpers.rs:32-62 | so a store of such keys only has none that a range could trip over |
| `Namespaces.UnboundedNamesTrip` | src/prefixed_storage/namespace_helpers.rs:64-80 | below the all-0xFF name the exception is real: the complete key of a neighbouring name is one of the shorter keys |
| `Namespaces.RangeKeys` | src/prefixed_storage/namespace_helpers.rs:32-57 | the keys between the joined bounds, for each combination of open and given ends |
| `Namespaces.NamespaceIsolation` | src/prefixed_storage/namespace_helpers.rs:4-23 | a write under one namespace changes what another of equal depth shows in no key and no range |
| `Namespaces.SubApply` | src/prefixed_storage/namespace_helpers.rs:12-23 | a prefixed write is that write on the namespace seen as a store of its own |
| `Namespaces.PrefixedStorage.constructor` | src/prefixed_storage/mod.rs:46-51 | the storage of one namespace |
| `Namespaces.PrefixedStorage.Multilevel` | src/prefixed_storage/mod.rs:56-61 | the storage of a nested namespace |
| `Namespaces.PrefixedStorage.Get` | src/prefixed_storage/namespace_helpers.rs:4-10 | reads its own namespace as a store |
| `Namespaces.PrefixedStorage.Set` | src/prefixed_storage/namespace_helpers.rs:12-19 | sets the key there, and leaves every namespace apart from it as it was |
| `Namespaces.PrefixedStorage.Remove` | src/prefixed_storage/namespace_helpers.rs:21-23 | removes the key there, and leaves every namespace apart from it as it was |
| `Namespaces.PrefixedStorage.Range` | src/prefixed_storage/namespace_helpers.rs:32-62 | exactly the entries of the namespace within bounds, trimmed and in order; trimming panics if and only if the end is open and a shorter key lies inside; empty for the all-0xFF prefix; never panics and always exact over a store of complete keys when the last name is not all 0xFF |
| `Messages.ContractPathsApart` | src/wasm.rs:153-185 | each contract's namespace differs from every other's, from the balances and from the registry |
| `Messages.ContractRangesAreExact` | src/wasm.rs:173-185 | contract storage meets the conditions of an exact range: the only complete keys it would have to fear are raw ones under `wasm` alone |
| `Bank.SubCoinExact` | src/bank.rs:173-184 | subtracting a coin works exactly when there is enough, and takes just that |
| `Bank.SubAllEffect` | src/bank.rs:173-184 | subtracting a list, repeats included, works exactly when every denomination's total is covered |
| `Bank.NormalizeEffect` | src/bank.rs:100-111 | a stored balance is sorted, merged and free of zeros, with the same amounts |
| `Bank.CanonicalUnique` | src/bank.rs:100-111 | such a balance is determined by its amounts |
| `Bank.MintEffect` | src/bank.rs:161-171 | minting fails only for all-zero coins; it raises that account and each supply by the listed totals |
| `Bank.BurnEffect` | src/bank.rs:173-184 | burning works exactly when all is covered; it lowers that account and each supply by the listed totals |
| `Bank.SendEffect` | src/bank.rs:150-159 | sending works exactly when something covered is sent; it moves just that, self-sends included, and no supply changes |
| `Bank.FindIsAmount` | src/bank.rs:330-332 | looking a denomination up in a stored balance finds its whole amount, or nothing exactly when that is zero |
| `Bank.Subtotal` | src/bank.rs:139-144 | one account's amount of a denomination, entry by entry |
| `Bank.GetSupply` | src/bank.rs:132-148 | the supply query adds up to the sum of all balances |
| `Engine.App.MintTo` | src/bank.rs:161-171 | over the storage stack does what the ledger's mint does, or fails alike |
| `Engine.App.BurnFrom` | src/bank.rs:173-184 | over the storage stack does what the ledger's burn does, or fails alike |
| `Engine.App.SendCoins` | src/bank.rs:150-159 | over the storage stack does what the reference send does, which `EngineOutcomes.SendMoves` states account by account |
| `Engine.App.CallContract` | src/wasm.rs:1591-1623 | agrees with the reference call in result and store; a contract error drops its writes |
| `Engine.App.WriteAll` | src/wasm.rs:173-185 | a contract's writes through its prefixed storage are those operations on the whole store |
| `Engine.App.Route` | src/app.rs:700-735 | a bank send or burn or a contract execution gives the reference interpreter's outcome, events, data and store; anything else is refused |
| `Engine.App.EnterContract` | src/wasm.rs:909-955 | calling a contract and running all it asks for agrees with the reference |
| `Engine.App.ProcessResponse` | src/wasm.rs:1276-1312 | submessages in order, later data over earlier, events appended, as in the reference |
| `Engine.App.ExecuteSubMsg` | src/wasm.rs:1134-1228 | a submessage and its reply agree with the reference (`EngineOutcomes.FailureIsRepliedTo`, `EngineOutcomes.SuccessIsRepliedTo`): after a failure the reply runs on the store the submessage started from, and where there is none that store is left and the failure returned |
| `Engine.App.Transactional` | src/transactions.rs:13-21 | agrees with running the message directly, and leaves the view unchanged unless it succeeds |
| `Engine.App.ExecuteMulti` | src/app.rs:444-465 | the batch agrees with the reference; on any failure the root is unchanged |
| `EngineLaws.RunMsgDeeper` | src/wasm.rs:1134-1312 | an outcome reached with some depth is the same with any greater depth |
| `EngineLaws.RunSubMsgDeeper` | src/wasm.rs:1134-1228 | the same for a submessage and its reply |
| `EngineLaws.CallTouchesOwnStorageOnly` | src/wasm.rs:1591-1623 | contract code changes no balance, no registry entry and no other contract's storage |
| `EngineLaws.RunMsgAccounts` | src/bank.rs:132-193 | across any successful message tree each supply falls by exactly the committed burns, balances stay sorted, merged and zero-free, and the registry is unchanged |
| `EngineLaws.RunSubMsgAccounts` | src/wasm.rs:1134-1228 | the same across a submessage and its reply, caught failures counting for nothing |
| `EngineLaws.MintAccounts` | src/bank.rs:161-171 | a mint raises each supply by the listed totals |
| `EngineLaws.RunListConcat` | src/app.rs:444-465 | running a list is running its first part and then the rest, succeeding exactly when both do |
| `EngineOutcomes.MintMoves` | src/bank.rs:161-171 | a mint works exactly when some amount is asked for, adds just the listed amounts to one account and stores nothing else differently |
| `EngineOutcomes.BurnMoves` | src/bank.rs:173-184 | a burn works exactly when some amount is asked for and the account has it all; which error it is otherwise; it takes just that from that account and stores nothing else differently |
| `EngineOutcomes.SendMoves` | src/bank.rs:150-159 | a send works exactly when some amount is asked for and the sender has it all; of every account and denomination it takes the amount at the sender and adds it at the recipient, and stores nothing else differently |
| `EngineOutcomes.BankSendPays` | src/bank.rs:221-234 | a bank send message pays just that, or fails for want of coins, and reports recipient, sender and amount |
| `EngineOutcomes.BankBurnDestroys` | src/bank.rs:235-239 | a bank burn message destroys just that, and reports nothing |
| `EngineOutcomes.FundsComeFirst` | src/wasm.rs:908-955 | a contract is called on the store in which the sender has paid its funds, and not at all for a bad address or a sender that cannot pay; its data comes back encoded |
| `EngineOutcomes.CallRunsCode` | src/wasm.rs:1591-1623 | code runs for a registered contract whose code exists, on the store as it is and on that very call; its own storage then shows its writes in order, and nothing counts unless it returns a well-formed response |
| `EngineOutcomes.ResponseIs` | src/wasm.rs:1231-1274 | the events of a call in order: the entry point's, one `wasm` event exactly when there are attributes, then the contract's own under `wasm-` names, each with the contract's address first |
| `EngineOutcomes.FailureIsRepliedTo` | src/wasm.rs:1189-1202 | by the four kinds of reply: `Always` and `OnError` call the reply entry with the error on the store before the submessage, `Never` and `OnSuccess` fail with it |
| `EngineOutcomes.SuccessIsRepliedTo` | src/wasm.rs:1158-1188 | `Always` and `OnSuccess` call the reply entry with events, data and type on the store after the submessage: the reply's data is the data, its events come last, and its failure is the failure; `Never` and `OnError` keep the store and drop the data |
| `EngineOutcomes.SubmessagesRun` | src/wasm.rs:1276-1312 | each submessage runs on the store the one before left, up to the first that fails; all events in order, the data of the last that gives any, the contract's own when none does |
| `Decimals.GrossRewardIs` | src/staking.rs:300-306 | of the three roundings in a reward before commission only the last can lose anything |
| `Decimals.CalculateRewardsIs` | src/staking.rs:290-308 | the reward in closed form over whole seconds; `Decimals.RewardInNumbers` spells it out |
| `Decimals.RewardInNumbers` | src/staking.rs:290-308 | gross reward: stake times rate times whole seconds over 31536000, rounded down; the reward is that less its commission, rounded down |
| `Decimals.CommissionCosts` | src/staking.rs:306-308 | a higher commission never leaves more, a commission of one leaves nothing and none leaves all |
| `Decimals.NinetyOfAThousand` | src/staking.rs:290-308 | 1000 tokens for a year at 10% with 10% commission give 90 |
| `Decimals.ShareOfRewardsIs` | src/staking.rs:62-71 | a share is rewards times stake over total, rounded down once |
| `Decimals.AccrualSplit` | src/staking.rs:290-308 | computing a span in two parts changes its reward by one atom at most, either way |
| `Decimals.AccrualInSteps` | src/staking.rs:290-308 | the reward computed over any number of parts is off by one atom at most for each split |
| `Decimals.ShareSplit` | src/staking.rs:62-71 | one split changes a delegator's share of the rewards by an atom at most, and one more for each time over that its shares are the validator's stake |
| `Decimals.ShareInSteps` | src/staking.rs:62-71 | any number of splits change it by that much at most for each |
| `Decimals.OnceOrInSteps` | src/staking.rs:62-71 | all at once or in steps: within that bound, which is two atoms for each split for a delegator with no more shares than the validator has stake |
| `Decimals.TwoAtomsAreNotEnough` | src/staking.rs:62-71 | with 1.9 times as many shares as stake, one split costs three atoms |
| `StakingBooks.UpdateRewardsBooks` | src/staking.rs:313-361 | updating rewards leaves every stake, every staker and every holding as it was |
| `StakingBooks.AddStakeBooks` | src/staking.rs:432-485 | adds the same amount to the delegator's holding and the validator's stake, in no other validator's book |
| `StakingBooks.RemoveStakeBooks` | src/staking.rs:432-485 | takes the same amount from both, only when both have it; an emptied holding goes with its staker |
| `StakingBooks.SlashBooks` | src/staking.rs:488-535 | scales stake and holdings with their own roundings, or wipes both |
| `StakingBooks.ScaleKeeps` | src/staking.rs:488-520 | one slash widens the drift bound by one token above and one atom per delegator below |
| `StakingBooks.StoreKeeps` | src/staking.rs:461-483 | delegating and undelegating leave the drift exactly as it is, and whole tokens whole |
| `StakingBooks.WithoutKeeps` | src/staking.rs:596-604 | forgetting a delegation costs less than a token of drift |
| `StakingLaws.StepKeeps` | src/staking.rs:432-535 | every operation keeps the drift within the bound its slashes and forgotten delegations allow |
| `StakingLaws.DriftBound` | src/staking.rs:432-535 | on every run: exact equality without slashing, the two-sided bound after k slashes, start over at a wipe-out; stakers are the holders until a delegation is forgotten |
| `StakingLaws.PayEffect` | src/staking.rs:609-620 | a payment goes through exactly when covered and moves just that amount |
| `StakingLaws.QueuePaysWhatIsDue` | src/staking.rs:560-626 | a covered queue is always paid; each delegator gets the sum of the due entries, once; exactly the later entries stay, in order |
| `StakingLaws.StepSolvent` | src/staking.rs:652-769 | every operation moves the module account's surplus over stakes and queue by exactly what was paid into or out of it from elsewhere, paid to it from the queue, or delegated by itself; a slash, if anything, upwards |
| `StakingLaws.OnlySpendingCosts` | src/staking.rs:652-769 | only the account's own delegations and payments from it elsewhere lower the surplus |
| `StakingLaws.DelegateSolvent` | src/staking.rs:663-697 | a delegation pays for the stake it adds if and only if somebody other than the module account makes it |
| `StakingLaws.RunSolvent` | src/staking.rs:652-769 | on every run the account holds what it began with and gained so, on top of all stakes and all queued unbondings, exactly so without slashing; the queue stays in payout order |
| `StakingLaws.NeverSpending` | src/staking.rs:652-769 | on a run with no such spending what it gained is not negative |
| `StakingLaws.BlocksAlwaysSettle` | src/app.rs:413-428 | on every run on which the module account has spent no more than its own, moving to a later block never fails on its queue, pays exactly what fell due and keeps the rest in order |
| `StakingRewards.LazyEqualsEager` | src/staking.rs:261-287 | a withdrawal hands out exactly what the query showed and the query then shows none; it works exactly when there is something to show, unless a staker is missing |
| `StakingRewards.ReachableLazyEqualsEager` | src/staking.rs:907-928 | in every reachable state, slashed or not |
| `StakingClaims.QueryShowsClaim` | src/staking.rs:234-308 | the query shows the whole tokens of the claim in numbers: what is stored, and the part, by shares over stake, of what the validator's delegators have earned since, commission taken off |
| `StakingClaims.UpdateStoresClaims` | src/staking.rs:313-361 | an update stores exactly every staker's claim, starts counting from now, and touches nothing else |
| `StakingClaims.ReachableIsListed` | src/staking.rs:461-483 | in every reachable state whoever has shares at a validator is one of its stakers, which is all the following assume |
| `StakingClaims.SlashKeepsClaims` | src/staking.rs:488-535 | a slash changes no claim of anybody who is left, at any validator, and rewards are counted from now on; with stake left, nobody goes |
| `StakingClaims.DelegatingKeepsClaims` | src/staking.rs:663-697 | a delegation changes nobody's claim; a new delegator starts with none |
| `StakingClaims.UndelegatingKeepsClaims` | src/staking.rs:698-736 | an undelegation changes nobody's claim, except that the delegator's own goes exactly with its last share |
| `StakingClaims.RedelegatingKeepsClaims` | src/staking.rs:737-767 | between two validators the same at both and everywhere else: the delegator's own claim goes exactly with its last share at the source, and at the destination only if it has no share there and adds none |
| `StakingClaims.RedelegatingAllToItselfForgets` | src/staking.rs:737-767 | from a validator to itself the claim stays, unless all shares are moved: then it is lost |
| `StakingClaims.RedelegatingToItselfKeepsOthers` | src/staking.rs:737-767 | and everybody else's claims stay |
| `StakingClaims.WithdrawSucceeds` | src/staking.rs:1020-1034 | with nobody missing, a withdrawal works exactly with a whole token to claim and a withdraw address the chain accepts |
| `StakingClaims.WithdrawingKeepsClaims` | src/staking.rs:907-928 | a withdrawal leaves the delegator no claim there and keeps every other, at every validator |
| `StakingClaims.RedelegateSucceeds` | src/staking.rs:737-767 | with nobody missing, a redelegation works exactly between known validators with an amount of the bonded denomination, zero included, that shares and stake at the source cover |
| `StakingRewards.DistributionConserves` | src/staking.rs:344-359 | without slashing an update credits at most the new rewards, and less than one atom per staker short of them |
| `StakingRewards.AccrualIsPathIndependent` | src/staking.rs:313-361 | the rewards `update_rewards` stores for any delegator after k+1 updates at increasing times are within k times that bound of what one update at the last time stores: 2k atoms with no more shares than the validator has stake |
| `StakingRewards.UnslashedAccrual` | src/staking.rs:313-361 | 2k atoms for every staker, on every run, of a validator not slashed since its stake was last wiped out |
| `StakingRewards.SafeExactlyWhenNobodyMissing` | src/staking.rs:344-359 | the expectation on stakers cannot fail in any operation but a move to a later block, which never trips it, exactly when every validator with stake has an entry for each of its stakers |
| `StakingRewards.OnlyAForgottenDelegationPanics` | src/staking.rs:509-520 | a run on which no delegation was forgotten has no panic to come, except at a later block when the module account has spent more than its own |
| `StakingRewards.AForgottenDelegationPanics` | src/staking.rs:596-604 | and a run from genesis on which one was forgotten and the next slash panics |
| `StakingMessages.DelegateSucceeds` | src/staking.rs:663-697 | with nobody missing, delegating works exactly with a positive amount of the bonded denomination that the sender has, at a known validator |
| `StakingMessages.SelfDelegationOverspends` | src/staking.rs:684-694 | delegating from the module account goes through, and leaves it short exactly when more is delegated than its surplus |
| `StakingMessages.TheModuleAccountCanOverspend` | src/staking.rs:684-694 | a run from genesis reaches a state where that happens |
| `StakingMessages.UndelegateSucceeds` | src/staking.rs:698-736 | with nobody missing, undelegating works exactly with a positive amount that both shares and stake cover |
| `StakingMessages.DelegationMoves` | src/staking.rs:663-697 | tokens go from the delegator to the module account and as many whole shares to the delegator; no other account of the bonded denomination, book or queue entry changes |
| `StakingMessages.UndelegationMoves` | src/staking.rs:698-736 | shares and stake go at once, no tokens move, and the queue gains that amount at the unbonding time |
| `StakingMessages.RedelegationMoves` | src/staking.rs:737-767 | what leaves one validator arrives at the other, and no tokens move |
| `StakingMessages.WithdrawalPays` | src/staking.rs:1020-1054 | a withdrawal pays what the query showed, to the delegator's withdraw address and nobody else |
| `StakingMessages.ReceiverIsSet` | src/staking.rs:931-955 | a withdraw address can be set exactly when the chain accepts it, redirects the sender's withdrawals and nobody else's, and setting one's own undoes it |
| `StakingMessages.UndelegateUndoesDelegate` | src/staking.rs:663-736 | undelegating what was just delegated restores every book and queues the tokens for return |
| `StakingOutcomes.SlashSucceeds` | src/staking.rs:870-897 | with nobody missing, a slash works exactly for a known validator and a part of at most one |
| `StakingOutcomes.SlashTakesStake` | src/staking.rs:488-520 | in numbers: the validator's stake and each staker's shares keep one minus that part, each rounded down; with no stake left all stakers and their delegations go |
| `StakingOutcomes.SlashTakesUnbondings` | src/staking.rs:521-535 | so does every queued unbonding from that validator; no other entry, validator, delegation, account or time changes |
| `StakingOutcomes.RegisteringIs` | src/staking.rs:192-217 | a new validator begins with no stake and no stakers, counting from now |
| `StakingOutcomes.BlockIs` | src/app.rs:413-428 | moving on moves the clock by just that and takes exactly the due entries off the front of the queue; it forgets exactly the delegations that were being paid out, have no whole token left and await nothing more, and changes no other share, validator or withdraw address |
| `StakeKeeper.Keeper.Register` | src/staking.rs:192-217 | a new validator, or an error for a known one |
| `StakeKeeper.Keeper.UpdateRewards` | src/staking.rs:313-361 | the pass over the stakers credits each its share, and panics on a missing one |
| `StakeKeeper.Keeper.UpdateStake` | src/staking.rs:432-485 | moves stake, error cases included |
| `StakeKeeper.Keeper.ScaleStakers` | src/staking.rs:503-520 | the pass over the stakers scales each, removes each, or panics on a missing one |
| `StakeKeeper.Keeper.ScaleQueue` | src/staking.rs:521-531 | the pass over the queue scales exactly the validator's entries, in place |
| `StakeKeeper.Keeper.Slash` | src/staking.rs:488-535 | rewards first, then stake, stakers and queue, as the value function; `StakingClaims.SlashKeepsClaims` and `StakingOutcomes.SlashTakesStake` say what that leaves |
| `StakeKeeper.Keeper.Execute` | src/staking.rs:652-769 | a staking message is carried out in full or not at all |
| `StakeKeeper.Keeper.RemoveRewards` | src/staking.rs:907-928 | the whole tokens due, and none left |
| `StakeKeeper.Keeper.Withdraw` | src/staking.rs:1020-1054 | mints just those to the withdraw address, the delegator's own unless set; an invalid address is an error |
| `StakeKeeper.Keeper.SetReceiver` | src/staking.rs:1053-1063 | stores a valid withdraw address, or clears it when it is the delegator's own |
| `StakeKeeper.Keeper.ProcessQueue` | src/staking.rs:560-626 | the loop from the front of the queue does what the recursive definition does |
| `StakeKeeper.Keeper.PendingFor` | src/staking.rs:585-594 | what a delegator still awaits from a validator |
| `StakeKeeper.Keeper.UpdateBlock` | src/app.rs:422-428 | a failing queue panics, nothing else does |
| `IbcModule.IbcApp.CreateConnection` | src/ibc/simple_ibc.rs:34-89 | a fresh identifier or a checked update of a known connection |
| `IbcModule.IbcApp.OpenChannel` | src/ibc/simple_ibc.rs:92-215 | a fresh channel with an `Init` or `Try` handshake under the application's version |
| `IbcModule.IbcApp.ConnectChannel` | src/ibc/simple_ibc.rs:217-337 | the handshake becomes an open channel to the given remote end; agrees with the value function in every refusal and in the panic on an absent version |
| `IbcModule.IbcApp.CloseChannel` | src/ibc/simple_ibc.rs:342-425 | the channel ends up closed, if its application agrees |
| `IbcModule.IbcApp.SendPacket` | src/ibc/simple_ibc.rs:428-503 | stores the packet under the returned sequence, and the channel's next one is one more |
| `IbcModule.IbcApp.ReceivePacket` | src/ibc/simple_ibc.rs:518-739 | an error for a packet received before; otherwise records it as late exactly from its height or its time on, leaves an ordered channel closed and ledger, vouchers and answers alone if it is, and stores the answer if it is in time |
| `IbcModule.IbcApp.AcknowledgePacket` | src/ibc/simple_ibc.rs:741-890 | only a sent packet, neither acknowledged nor timed out, which then is acknowledged with that answer |
| `IbcModule.IbcApp.TimeoutPacket` | src/ibc/simple_ibc.rs:892-1009 | only a sent packet, neither acknowledged nor timed out, which then is timed out |
| `IbcModule.IbcApp.Transfer` | src/ibc/simple_ibc.rs:1012-1059 | locks the coin and sends what it stands for on that channel |
| `IbcModule.IbcApp.BankReceive` | src/bank.rs:313-394 | unlocks a denomination the lock account has, panics on too little of it, mints and registers a voucher otherwise |
| `IbcModule.IbcApp.BankTimeout` | src/bank.rs:436-477 | refunds from the lock account, refuses what it does not hold |
| `IbcModule.IbcApp.Sudo` | src/app.rs:509-523 | any message is carried out in full or not at all |
| `IbcLaws.MessageSteps` | src/ibc/simple_ibc.rs:1124-1206 | every message keeps identifiers, handshakes, packets and receipts consistent and undoes nothing |
| `IbcLaws.RunSteps` | src/ibc/simple_ibc.rs:1124-1206 | and so does every run |
| `IbcLaws.LifeCycle` | src/ibc/simple_ibc.rs:1124-1206 | on every run from an empty module: handshakes are only `Init` or `Try`, the packets sent are exactly 1 to next - 1 of each channel, none is both acknowledged and timed out or either without being sent, and exactly the packets received in time are answered |
| `IbcLaws.HandshakeBranchUnreachable` | src/ibc/simple_ibc.rs:250-278 | stored handshakes are only ever `Init` or `Try`: connecting refuses only an unknown handshake or an unwilling application |
| `IbcLaws.ChannelForGood` | src/ibc/simple_ibc.rs:280-314 | a connected channel is never re-initialised, keeps its counterparty, order and version, and once closed stays closed |
| `IbcLaws.IdentifiersAreFresh` | src/ibc/simple_ibc.rs:123-131 | no channel identifier is issued twice on a port |
| `IbcLaws.PacketSent` | src/ibc/simple_ibc.rs:428-503 | sent sequences stay exactly 1 to next - 1, addressed to the counterparty |
| `IbcLaws.PacketAcked` | src/ibc/simple_ibc.rs:762-815 | acknowledged and timed-out packets stay disjoint subsets of the sent ones |
| `IbcLaws.PacketTimedOut` | src/ibc/simple_ibc.rs:912-957 | the same for timeouts |
| `IbcLaws.DeliveryIs` | src/ibc/simple_ibc.rs:538-641 | the three ways a delivery can go through, by the packet's own height and time bounds, and what each leaves behind |
| `IbcLaws.ReceivedOnce` | src/ibc/simple_ibc.rs:538-581 | whatever happens since, a recorded delivery keeps its timeout flag and a second one is refused |
| `IbcLaws.SettledOnce` | src/ibc/simple_ibc.rs:762-808 | whatever happens since, a settled packet is neither acknowledged nor timed out again |
| `IbcLaws.PortsRoundTrip` | src/ibc/types.rs:77-106 | a printed port parses back exactly when its contract has no dot, and nothing else parses to it |
| `IbcOutcomes.ConnectionIs` | src/ibc/simple_ibc.rs:34-89 | a connection gets the number of those there are; a known one is updated only for the same chain, and keeps its counterparty unless a new one is given |
| `IbcOutcomes.OpeningIs` | src/ibc/simple_ibc.rs:92-215 | opening works exactly for a known connection and an agreeing application; the next number of the port, the version a contract names or else the one proposed, `Try` for an answer and `Init` otherwise |
| `IbcOutcomes.ConnectingIs` | src/ibc/simple_ibc.rs:217-337 | connecting works exactly for a stored handshake, a version and an agreeing application, and panics exactly without the version |
| `IbcOutcomes.LateDeliveryCreditsNobody` | src/ibc/simple_ibc.rs:538-601 | from the packet's height or time on, either alone: recorded as late, the channel closed if it is ordered and its application agrees, no account, voucher or answer changed |
| `IbcOutcomes.DeliveryInTime` | src/ibc/simple_ibc.rs:602-641 | before both bounds: recorded as in time with its answer, exactly when the bank or the contract takes it; the bank's part is all that happens to accounts and vouchers |
| `IbcOutcomes.AcknowledgingIs` | src/ibc/simple_ibc.rs:741-890 | acknowledging works exactly for a sent, unsettled packet of an agreeing application that can read it |
| `IbcOutcomes.TimingOutIs` | src/ibc/simple_ibc.rs:892-1009 | timing out works exactly for a sent, unsettled packet, if the bank can refund or the contract agrees; the stored packet is refunded, not the one handed in |
| `IbcOutcomes.PayingMoves` | src/bank.rs:150-159 | a payment on such a chain moves just the listed coins between the two accounts, exactly when the sender has them |
| `IbcOutcomes.TransferringIs` | src/ibc/simple_ibc.rs:1012-1059 | a transfer works exactly with a positive amount the sender has on a connected channel; the packet names the coin, or the original of a voucher of that channel |
| `IbcWorld.MoveKeeps` | src/ibc/relayer/packet.rs:164-225 | every local message and every relayed one keeps the two ends in agreement, both ways |
| `IbcWorld.TheTwoEndsAgree` | src/ibc/relayer/packet.rs:164-225 | on every interleaving: received only as sent, acknowledged only in time and with that answer, timed out only if too late there |
| `IbcWorld.UnusedAgreeForever` | src/ibc/relayer/packet.rs:164-225 | that holds of two linked ends as long as neither has received or sent anything when it starts |
| `IbcWorld.RelayingKeeps` | src/ibc/relayer/packet.rs:164-225 | whatever the relayer does keeps the two ends in agreement |
| `Relayer.ConnectChains` | src/ibc/relayer/channel.rs:60-97 | each chain records the other's new connection; it cannot fail |
| `Relayer.ConnectPorts` | src/ibc/relayer/channel.rs:152-230 | a created channel has two open ends naming each other, alike in order and version, under fresh identifiers and unused; they agree on every packet from then on, on every interleaving |
| `Relayer.RelayPacket` | src/ibc/relayer/packet.rs:164-225 | a relayed packet ends acknowledged with the other end's answer, or timed out there and here; on an ordered channel a timeout leaves both ends closed; and what happened to the two chains is a run of the relayer's moves |
| `Relayer.RelayPackets` | src/ibc/relayer/packet.rs:88-110 | relaying a list, each packet with answers of its own, settles every packet of it, as reported |
| `Escrow.TransferIs` | src/ibc/simple_ibc.rs:1012-1059 | the sender pays the lock account; the packet names the unwrapped denomination |
| `Escrow.BankReceiveIs` | src/bank.rs:329-368 | unlocking or minting, exactly when each succeeds, and that the assertion fires exactly when the lock account has some, but too little |
| `Escrow.BankTimeoutIs` | src/bank.rs:448-477 | a refund succeeds exactly for a valid sender and a positive amount the lock account covers; the assertion as above |
| `Escrow.RefundedExactly` | src/bank.rs:448-477 | the timeout of a sent, unsettled transfer is refunded if and only if its sender is valid, its amount positive and the lock account covers it in the denomination it names |
| `Escrow.ProperRoutesExist` | src/bank.rs:521-525 | the assumptions on denomination hashes can be met |
| `EscrowLaws.HomeDenom` | src/bank.rs:527-542 | on its own chain only the denomination itself is sent under its name |
| `EscrowLaws.AwayDenom` | src/bank.rs:527-542 | on the other chain exactly its voucher is |
| `EscrowRuns.MoveBacked` | src/bank.rs:313-501 | for a denomination native to one of the two chains only: no move lets the lock account fall behind what is outstanding, and only direct payments put it ahead |
| `EscrowRuns.EscrowBacking` | src/bank.rs:332-352 | for a denomination native to one of the two chains only, on every run from a fresh channel: lock balance at least, and without direct payments exactly, what is under way plus vouchers circulating plus what is coming back, on top of what it began with |
| `EscrowRuns.RelayingBacked` | src/ibc/relayer/packet.rs:164-225 | so whatever the relayer does keeps the lock account covered |
| `EscrowHub.HubMoveKeeps` | src/bank.rs:313-501 | with any number of chains around the one that has the denomination, each over a channel of its own: a move on one channel leaves every other channel's books in order and the common lock account covered |
| `EscrowHub.HubBacking` | src/bank.rs:332-352 | on every run over all the channels in any order: the one lock account holds the sum, over the channels, of what is under way, circulating and coming back, exactly so without direct payments; each channel alone is then covered |
| `EscrowHub.ChannelJoins` | src/ibc/relayer/channel.rs:152-230 | a channel connected at any later time joins in |
| `EscrowHub.HubStartsExist` | src/bank.rs:504-525 | hubs of any size meet the assumptions |
| `EscrowJoint.JointMove` | src/bank.rs:313-501 | for a denomination either chain may have of its own: every move, on either side, keeps the two lock accounts together covering all vouchers and everything under way |
| `EscrowJoint.JointBacking` | src/bank.rs:332-352 | on every run from a fresh channel: both lock balances together are at least, and without direct payments exactly, the vouchers circulating on both chains plus everything under way, on top of what they began with; so one of them covers its part exactly when the other holds no more than its own |
| `EscrowRuns.StartsExist` | src/bank.rs:504-525 | such channels exist, with any amount to begin with |
| `EscrowRuns.CreatedChannelStarts` | src/ibc/relayer/channel.rs:152-230 | and what the relayer's channel creation leaves is one, when neither chain has vouchers of the denomination yet |
| `EscrowRuns.ArrivalsMintVouchers` | src/bank.rs:353-367 | where the receiving chain has none of its own: a transfer in time to a valid address gives the receiver just that much of the voucher, which names the denomination from then on |
| `EscrowRuns.ReturnsAlwaysUnlock` | src/bank.rs:332-352 | of a denomination native to one chain only: a returning amount never trips the assertion, and in time to a valid address it is handed out of the lock account |
| `EscrowRuns.LateTransfersAreRefunded` | src/bank.rs:459-477 | of a denomination native to one chain only: a transfer that arrived too late is refunded to its sender |
| `EscrowRuns.LateReturnsAreNotRefunded` | src/bank.rs:459-477 | of a denomination native to one chain only: a voucher that came home too late is not, its timeout is refused |
| `EscrowRefunds.LateRefundExactly` | src/bank.rs:459-477 | a late packet carrying a denomination native to one chain only is refunded if and only if it left that chain and its sender's address is valid there |
| `EscrowRefunds.RefundedExactlyWhenNotAVoucher` | src/bank.rs:448-477 | seen from the sending, for a denomination native to one chain only: a transfer whose packet names it and is received too late, whatever happened in between, is refunded if and only if the coin was not registered as a voucher of that channel and the sender's address is valid |
| `EscrowRefunds.AVoucherCanBeStranded` | src/bank.rs:459-477 | a run from a fresh channel (out, back too late) that ends with the refund refused |
| `EscrowRefunds.ANativeCoinCanBeStranded` | src/bank.rs:459-477 | with the denomination on both chains: a run from a fresh channel on which a native coin sent by a valid sender arrives too late and its refund is refused |
| `EscrowRefunds.TheClockAloneIsEnough` | src/ibc/simple_ibc.rs:538-641 | a run from a fresh channel with a packet bound by a time and no height: delivered past that time it is late, and its timeout refunds the sender in full; just before the clock moved it would have been acknowledged |

## Left out

- Contract code is a deterministic function of the call and the chain; it returns its writes, and a depth bound replaces termination (an outcome that is reached does not depend on the bound). Response checks and the encoding of execute data are parameters.
- Instantiate, migrate, contract sudo, admin changes, the code registry, code-id guards, attribute checks and address generation: single branches or foreign code.
- Staking, distribution, IBC and custom messages inside contract message trees: these modules are modelled beside the interpreter, with every message rolled back as a whole when it fails.
- 128-, 256- and 64-bit overflow: amounts and decimals are unbounded; sequence numbers and heights too.
- `NativeBalance`, `Map`, `Item`, `Deque` and the indexed connection map are modelled as sorted lists, maps and sequences; `STAKES` is kept per validator instead of per delegator and validator.
- Range iterators are lazy in the program; here each yields its list at once.
- JSON, protobuf and hex encodings; error texts; event attributes other than the ones that name and order contract events. IBC events are read off the methods' results.
- Hash and address functions: the denomination hash is any function, assumed free of collisions only where escrow needs it; address validation is any predicate; addresses have at most 255 bytes.
- What a contract behind a `wasm.` port does when called over IBC is a parameter (does it accept, which version, which answer); its own further messages are separate moves. IBC hooks and source callbacks (`src/ibc/memo`) are absent, and so are the ports of the staking module.
- The local endpoint stored in a channel's info equals the key it is stored under and is not repeated; `last_packet_relayed` is never used.
- Block time never goes back; validators have commissions of at most one (`add_validator` checks neither).
- Queries other than balances, supply and rewards; stargate, gov, `ContractWrapper`, `AppBuilder` and the failing and accepting modules: wrappers and plumbing.
- Relayed packets are delivered as stored, by a relayer that reports only what the other chain recorded; a forged packet is outside `IbcWorld` and the escrow results.
- `setup`, genesis balances and denomination metadata are inputs or absent.
- EscrowRuns.EscrowBacking: assumes that only one of the two chains has the denomination of its own, because with both it is false (EscrowRefunds.ANativeCoinCanBeStranded); EscrowJoint.JointBacking is what holds then, and EscrowHub.HubBacking covers more channels.
- EscrowRuns.MoveBacked: the same.
- EscrowRuns.ArrivalsMintVouchers: the same; Escrow.BankReceiveIs says what any arrival does.
- EscrowRuns.ReturnsAlwaysUnlock: the same; Escrow.BankReceiveIs says what any arrival does.
- EscrowRuns.LateTransfersAreRefunded: the same; Escrow.RefundedExactly says what any timeout does.
- EscrowRuns.LateReturnsAreNotRefunded: the same; Escrow.RefundedExactly says what any timeout does.
- EscrowRefunds.LateRefundExactly: the same; Escrow.RefundedExactly says what any timeout does.
- EscrowRefunds.RefundedExactlyWhenNotAVoucher: the same; Escrow.RefundedExactly says what any timeout does.
- EscrowHub.HubBacking: gives the chains around the hub one transfer channel each, because a voucher forwarded over another channel is escrowed under its own name; the lock accounts send nothing themselves.
- EscrowJoint.JointBacking: speaks of one channel between the two chains, for the same reason.
- Engine.App.Route: interprets bank sends, bank burns and contract executions only; every other message is one refusal, because the modules behind them are modelled beside the interpreter.
- StakeKeeper.Keeper.UpdateBlock: does not model a block moved back in time, because reward calculation panics there on the subtraction of the two times.
- IbcModule.IbcApp.ReceivePacket: does not run a hooks memo or the receiving contract's own messages inside the delivery, because contract code is a parameter there; messages it sends are moves of their own.
- IbcModule.IbcApp.AcknowledgePacket: has no source callback after the acknowledgement, for the same reason.
- IbcModule.IbcApp.TimeoutPacket: has no source callback after the timeout, for the same reason.
- IbcModule.IbcApp.BankReceive: does not execute the contract a hooks memo names, for the same reason.
- IbcModule.IbcApp.BankTimeout: does not call the contract a memo names, for the same reason.
- Relayer.RelayPackets: is given the list of packets, which the program reads from a transaction's events.
- StakingRewards.DistributionConserves: claims conservation for validators not slashed since their stake was last wiped out, because slashing makes shares and stake drift.
