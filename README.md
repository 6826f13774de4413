# Dapp session state machine

A model of the `Dapp` React component of a small wallet front end: the one state record it
owns (selected account, pending transaction hash, transaction error, network error, network
and four token readings), the instance fields it fills while connecting (`_web3`, `_weth`,
`_rootChainManager`, `_dummyERC20`), and the handlers that move the record from one state to
the next — connecting, the wallet's account and network notifications, the balance and
allowance reads, the four submits (deposit, ETH bridge, approve, dummy-token bridge), the
transaction-event handlers, the two dismissals and the reset — together with `render`'s choice
of screen and sections.

Modules:

- `Wrappers` — `Option`, standing for a value or `undefined`.
- `RpcErrors` — provider errors, the user-rejection code 4001, `_getRpcErrorMessage`.
- `Addresses` — the per-network address table, `stateNameMap`, truthiness of an address.
- `Web3` — the outside world as abstract inputs: contract handles, the requests a submit
  sends, the outcome of a send as its event sequence (`Confirmed`: hash, receipt, resolve;
  `Failed`: optional hash, error, reject), and a `Chain` value whose functions answer reads,
  `toWei`, the bridge's deposit-data encoding and sends.
- `SessionState` — the state record, the reading-key derivation, and each single `setState`
  update as a function whose contract says which fields it changes and to what
  (`SameExcept`: all other fields agree).
- `Controller` — the component as a value, every handler as a function of it, and the
  lemmas about the submit sequences, initialisation gating and reconnection.
- `Traces` — every event that reaches a handler, runs of events, and what holds in every
  reachable state.
- `DappComponent` — the class `Dapp`: the state record and instance fields updated in place;
  every method is proved to leave the object as the matching `Controller` function says.
- `View` — `render`.

`setState` is an immediate assignment. The four readings are kept in one dictionary
(`readings`, an absent key reads as undefined) because `_getBalance`/`_getAllowance` write a
computed key, `stateNameMap[address] + 'Balance'`: an address the map does not list produces
the key `undefinedBalance`, which the record does not declare. `_resetState` calls
`setState(initialState)`, which merges, so such a key survives a reset; the model keeps this.
Consequently a reset restores exactly the initial record only while every `weth` and
`dummyERC20` address the address table configures is listed in `stateNameMap`
(`Traces.TableMapped`); the lemmas about reachable states carry that condition.

Behaviour of the code worth noting:

- A user rejection (code 4001) changes nothing beyond the error the submit cleared first; it
  does not clear `txBeingSent`.
- A send that reports an error after its hash leaves that hash in `txBeingSent`: the error
  makes the awaited send reject, so the `setState({txBeingSent: undefined})` after it never
  runs.
- `_bridgeDummyERC20` attaches no handlers: it never records an error or a pending hash.
- On a network missing from the address table, `_initialize` stores the account and creates
  the client, then throws; `render` throws on the main screen (`Screen.RenderTypeError`).
- No guard ignores completions from an earlier session, and listeners are never removed.

## Model

| member | source | states |
|---|---|---|
| RpcErrors.GetRpcErrorMessage | src/components/Dapp.js:296-301 | the nested `data.message` is shown whenever `data` is present (even if it has no message), otherwise the top-level message; the text is always one the provider supplied |
| SessionState.Initial | src/components/Dapp.js:24-34 | the initial record: no account, no pending transaction, no errors, network 0, no reading defined (the lemma `SessionState.ResetRestoresInitial` relates it to `_resetState`) |
| SessionState.ReadingKey | src/components/Dapp.js:202-210 | the key a read is stored under ends in `Balance` or `Allowance` by the kind of read, so the two reads of one token never share a key (which key the state name gives: `MappedAddressKeys`, `UnmappedAddressKey`) |
| SessionState.MappedAddressKeys | src/components/Dapp.js:36-40 | both WETH addresses derive the keys `wethBalance`/`wethAllowance`, the dummy token `dummyERC20Balance`/`dummyERC20Allowance` |
| SessionState.MappedAddressHasDeclaredKey | src/components/Dapp.js:30-40 | for each address `stateNameMap` lists, the derived key is one of the four readings the initial record declares |
| SessionState.UnmappedAddressKey | src/components/Dapp.js:202-210 | an unlisted address derives `undefined` + suffix, a key the record does not declare |
| SessionState.SetReading | src/components/Dapp.js:202-203 | the reading under the key becomes the value read; every other field and reading is unchanged |
| SessionState.SelectAccount | src/components/Dapp.js:163-166 | account and network become the wallet's; nothing else changes |
| SessionState.OnTransactionHash | src/components/Dapp.js:270-272 | `txBeingSent` becomes the hash; nothing else changes |
| SessionState.ClearTxBeingSent | src/components/Dapp.js:273-275 | `txBeingSent` becomes undefined; nothing else changes |
| SessionState.OnError | src/components/Dapp.js:276-282 | a 4001 error leaves the state unchanged; any other error becomes `transactionError`; no other field changes |
| SessionState.DismissTransactionError | src/components/Dapp.js:285-287 | only `transactionError` changes, to undefined |
| SessionState.DismissNetworkError | src/components/Dapp.js:290-292 | only `networkError` changes, to undefined |
| SessionState.DismissTransactionErrorIdempotent | src/components/Dapp.js:285-287 | dismissing twice equals dismissing once |
| SessionState.DismissNetworkErrorIdempotent | src/components/Dapp.js:290-292 | dismissing twice equals dismissing once |
| SessionState.Reset | src/components/Dapp.js:304-306 | every declared field holds its initial value (no address, no pending tx, no errors, network 0, four readings undefined); undeclared reading keys are kept |
| SessionState.ResetRestoresInitial | src/components/Dapp.js:24-34 | a state with readings only under declared keys resets to exactly the initial record |
| SessionState.ResetIdempotent | src/components/Dapp.js:304-306 | resetting twice equals resetting once |
| SessionState.Track | src/components/Dapp.js:218-223 | hash then receipt: nothing pending, nothing else changed; an error after a hash leaves the hash pending; a 4001 error records nothing, any other is recorded; a rejection before any hash changes nothing |
| Controller.GetBalance | src/components/Dapp.js:198-204 | with a token, only the token's balance reading may change, and a balance the chain returns is stored there; without a token or with a rejected read nothing changes; instance fields, account and network are kept |
| Controller.GetAllowance | src/components/Dapp.js:206-212 | the same for the allowance of the given spender, stored under the token's allowance key |
| Controller.Initialize | src/components/Dapp.js:161-196 | a rejected `enable` changes nothing; otherwise the account is the first one returned, the network the wallet's, and a client is created (injected provider, else the fallback URL); the pending hash and both errors are kept (which contracts and readings follow: `InitializeGating`, `InitializeReadsWethBalance`, `InitializeReadsBridgeReadings`) |
| Controller.OnWalletChanged | src/components/Dapp.js:150-158 | after an account or network change nothing is pending and no error is shown; if `enable` then rejects, the record is the initial one while the earlier session's contracts remain (`WalletChangedRebuildsSession` for the accepted case) |
| Controller.Deposit | src/components/Dapp.js:214-226 | keeps instance fields, account, network and network error; the error left is that of a non-rejection failure of the deposit send, the pending hash the one its events imply (full sequence: `DepositLifecycle`) |
| Controller.BridgeEth | src/components/Dapp.js:244-254 | the same for the `depositEtherFor` send, and no reading changes (`BridgeEthLifecycle`) |
| Controller.ApproveToken | src/components/Dapp.js:256-268 | the same for the `approve` send (re-read of the allowance: `ApproveLifecycle`) |
| Controller.BridgeDummyERC20 | src/components/Dapp.js:228-242 | keeps instance fields, account, network, network error and readings; ends with no transaction error; what is pending is either nothing or what was pending before (`BridgeDummyERC20NeverTracks`) |
| Controller.SendTrackedEffect | src/components/Dapp.js:218-224 | after the error was cleared, the send leaves exactly the error of a non-rejection failure and the pending hash the event sequence implies, touching no other field |
| Controller.DepositLifecycle | src/components/Dapp.js:214-226 | `_deposit` sends `toWei(amount)` from the selected account to the WETH contract; clears the error first; ends with nothing pending after a receipt; then re-reads the WETH balance into its key; keeps instance fields and all other readings |
| Controller.BridgeEthLifecycle | src/components/Dapp.js:244-254 | `_bridgeEth` sends `toWei(amount)` to the root chain manager for the selected account; same error and pending outcome as deposit; re-reads nothing |
| Controller.ApproveLifecycle | src/components/Dapp.js:256-268 | `_approve` approves `toWei(amount)` for the spender; after a receipt re-reads the allowance of that same spender on that same token into the token's allowance key |
| Controller.BridgeDummyERC20NeverTracks | src/components/Dapp.js:228-242 | `_bridgeDummyERC20` sends `depositFor` with the table's dummy token; never records an error or a pending hash; a resolved send clears what was pending |
| Controller.UserRejectionOnlyClearsError | src/components/Dapp.js:276-279 | when every send is rejected by the user, each submit only clears the transaction error |
| Controller.InitializeGating | src/components/Dapp.js:161-196 | `_initialize` creates the WETH contract only if `weth` is configured and the bridge contracts only if both `rootChainManager` and `dummyERC20` are; it changes no reading beyond the reads of the configured roles; an unknown network stops after the account |
| Controller.InitializeReadsWethBalance | src/components/Dapp.js:169-176 | with `weth` configured, the balance the chain reports for the first account is stored under the WETH balance key |
| Controller.InitializeReadsBridgeReadings | src/components/Dapp.js:178-195 | with the bridge configured, the dummy token's balance for the first account and its allowance for `erc20Predicate` are stored under the dummy token's balance and allowance keys |
| Controller.InitializeStateIgnoresOldContracts | src/components/Dapp.js:161-196 | the state `_initialize` produces does not depend on contracts left from an earlier session |
| Controller.WalletChangedRebuildsSession | src/components/Dapp.js:150-158 | reset followed by initialise yields the state a fresh connect yields, given no undeclared reading key |
| Traces.Apply | src/components/Dapp.js:92-138 | each event reaches its handler as `render` and the listeners wire them; no handler gives `networkError` a new defined value; only connecting and a wallet change alter the instance fields, the account or the network |
| Traces.ApplyKeepsNetworkErrorUndefined | src/components/Dapp.js:290-292 | no handler sets `networkError` to a defined value |
| Traces.NetworkErrorStaysUndefined | src/components/Dapp.js:28 | `networkError` stays undefined along every run of events |
| Traces.RunKeepsMappedSession | src/components/Dapp.js:198-212 | when the table's token addresses all have state names, every reading a run stores sits under a declared key |
| Traces.ResetAfterRunIsInitial | src/components/Dapp.js:304-306 | when every `weth`/`dummyERC20` address the table configures is listed in `stateNameMap`, from every state reachable from the mounted component `_resetState` restores exactly the initial record |
| Traces.WalletChangedAfterRunRebuildsSession | src/components/Dapp.js:150-158 | when every `weth`/`dummyERC20` address the table configures is listed in `stateNameMap`, in every reachable state an account or network change rebuilds the session as a fresh connect would |
| Traces.UndeclaredReadingSurvivesReset | src/components/Dapp.js:304-306 | a reading under an unlisted address's key survives `_resetState`, so the result is not the initial record |
| View.Render | src/components/Dapp.js:45-144 | no wallet: `NoWalletDetected`; else no (truthy) address: `ConnectWallet` with the network error; else an unknown network throws; else the main screen, with the WETH section iff `weth` is configured, the bridge section iff `rootChainManager` and `dummyERC20` are, the pending banner iff `txBeingSent` is truthy, the error banner with the extracted message iff there is an error |
| View.ConnectScreenShowsNoNetworkError | src/components/Dapp.js:49-57 | in every reachable state the connect screen shows no network error |
| View.SectionsMatchInitializedContracts | src/components/Dapp.js:83-114 | after connecting on a configured network, each section is shown exactly when `_initialize` created its contracts |
| DappComponent.Dapp.constructor | src/components/Dapp.js:21-43 | the component starts with the initial record and no instance fields |
| DappComponent.Dapp.ConnectWallet | src/components/Dapp.js:146-148 | connecting is `_initialize` |
| DappComponent.Dapp.OnWalletChanged | src/components/Dapp.js:150-158 | the listeners reset and re-initialise |
| DappComponent.Dapp.Initialize | src/components/Dapp.js:161-196 | leaves the object as `Controller.Initialize` of its old value |
| DappComponent.Dapp.GetBalance | src/components/Dapp.js:198-204 | leaves the object as `Controller.GetBalance` |
| DappComponent.Dapp.GetAllowance | src/components/Dapp.js:206-212 | leaves the object as `Controller.GetAllowance` |
| DappComponent.Dapp.Dispatch | src/components/Dapp.js:221-223 | firing the attached handlers in event order yields `Track` of the old state |
| DappComponent.Dapp.Deposit | src/components/Dapp.js:214-226 | leaves the object as `Controller.Deposit` |
| DappComponent.Dapp.BridgeDummyERC20 | src/components/Dapp.js:228-242 | leaves the object as `Controller.BridgeDummyERC20` |
| DappComponent.Dapp.BridgeEth | src/components/Dapp.js:244-254 | leaves the object as `Controller.BridgeEth` |
| DappComponent.Dapp.Approve | src/components/Dapp.js:256-268 | leaves the object as `Controller.ApproveToken` |
| DappComponent.Dapp.OnTransactionHash | src/components/Dapp.js:270-272 | the state becomes `OnTransactionHash` of the old state; instance fields unchanged |
| DappComponent.Dapp.OnReceipt | src/components/Dapp.js:273-275 | the state becomes `ClearTxBeingSent` of the old state |
| DappComponent.Dapp.OnError | src/components/Dapp.js:276-282 | the state becomes `OnError` of the old state |
| DappComponent.Dapp.DismissTransactionError | src/components/Dapp.js:285-287 | the state becomes `DismissTransactionError` of the old state |
| DappComponent.Dapp.DismissNetworkError | src/components/Dapp.js:290-292 | the state becomes `DismissNetworkError` of the old state |
| DappComponent.Dapp.ResetState | src/components/Dapp.js:304-306 | the state becomes `Reset` of the old state |

## Left out

- Wallet and chain calls (`window.ethereum.enable`, `networkVersion`, `on`, `new Web3`, `new Contract`, `methods.*.call/send`): their results are inputs — the accounts `enable` resolves to (or its rejection), the network, whether a provider was injected, and a `Chain` value answering reads and sends.
- `toWei`, `toBN` and `encodeParameter` are opaque functions of `Chain`; the floating-point `amount * 10 ** decimal` of `_bridgeDummyERC20` is inside the opaque deposit-data encoding.
- The address normalisation web3 applies to a contract's `options.address` is not modelled: a contract's address is the configured string.
- Listener registration in `_connectWallet`: the listeners' body is `OnWalletChanged`; registering them again on every connect, and never removing them, is not modelled.
- Asynchrony: each handler runs to completion before the next event; setState batching, the `this.state.network` read right after `setState` in `_initialize`, interleaving of concurrent submits, stale completions after a wallet switch, and the order in which `_initialize`'s unawaited reads complete (taken as call order) are not modelled.
- `console.error` logging in `_onError`.
- The network identifier is a natural number; the wallet reports it as a decimal string and the address table is looked up with it as a property name.
- Readings are natural numbers; web3 returns them as decimal strings.
- JSX markup, the `NoWalletDetected`, `ConnectWallet`, `TransactionErrorMessage` and `WaitingForTransactionMessage` components, and the forms in src/components/Approve.js, src/components/Allowance.js and src/components/Deposit.js (their only logic is a non-empty check before the callback; events in `Traces` accept any strings). The `contract` prop passed to the bridge's Approve form is ignored by that form and has no effect.
- src/index.js only mounts the component.
