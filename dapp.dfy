/** The `Dapp` component as an object: its state record and the instance fields `_web3`,
    `_weth`, `_rootChainManager` and `_dummyERC20`, updated in place by its handlers.
    `setState` is an immediate assignment to `state`. Every method is proved to leave the
    component as the matching function of `Controller` says. */
module DappComponent {
  import opened Wrappers
  import opened RpcErrors
  import opened Addresses
  import opened Web3
  import S = SessionState
  import C = Controller

  class Dapp {
    /** The imported address table. */
    const addresses: AddressTable
    var state: S.State
    var web3: Option<Web3Client>
    var weth: Option<Contract>
    var rootChainManager: Option<Contract>
    var dummyERC20: Option<Contract>

    /** The component's current value. */
    function Snapshot(): C.Component
      reads this
    {
      C.Component(state, web3, weth, rootChainManager, dummyERC20)
    }

    constructor (addresses: AddressTable)
      ensures this.addresses == addresses
      ensures Snapshot() == C.Mounted()
    {
      this.addresses := addresses;
      state := S.Initial();
      web3, weth, rootChainManager, dummyERC20 := None, None, None, None;
    }

    /** `_connectWallet`: initialise with the wallet's answers. */
    method ConnectWallet(accounts: Option<seq<Address>>, networkVersion: nat, givenProvider: bool, chain: Chain)
      modifies this
      ensures Snapshot() == C.Initialize(old(Snapshot()), addresses, accounts, networkVersion, givenProvider, chain)
    {
      Initialize(accounts, networkVersion, givenProvider, chain);
    }

    /** The `accountsChanged` and `networkChanged` listeners. */
    method OnWalletChanged(accounts: Option<seq<Address>>, networkVersion: nat, givenProvider: bool, chain: Chain)
      modifies this
      ensures Snapshot() == C.OnWalletChanged(old(Snapshot()), addresses, accounts, networkVersion, givenProvider, chain)
    {
      ResetState();
      Initialize(accounts, networkVersion, givenProvider, chain);
    }

    /** `_initialize`. `accounts` is what `enable` resolved to, None when it rejected. */
    method Initialize(accounts: Option<seq<Address>>, networkVersion: nat, givenProvider: bool, chain: Chain)
      modifies this
      ensures Snapshot() == C.Initialize(old(Snapshot()), addresses, accounts, networkVersion, givenProvider, chain)
    {
      if accounts.None? { return; }
      var selectedAddress := if |accounts.value| > 0 then Some(accounts.value[0]) else None;
      state := state.(selectedAddress := selectedAddress, network := networkVersion);
      web3 := Some(ClientFor(givenProvider));
      // `contractAddress[network]` is undefined for an unknown network: reading `.weth` throws
      if state.network !in addresses { return; }
      var config := addresses[state.network];
      if HasWeth(config) {
        weth := Some(Contract(WETHAbi, config.weth.value));
        GetBalance(weth, chain);
      }
      if HasBridge(config) {
        rootChainManager := Some(Contract(RootChainManagerAbi, config.rootChainManager.value));
        dummyERC20 := Some(Contract(DummyERC20Abi, config.dummyERC20.value));
        GetBalance(dummyERC20, chain);
        GetAllowance(config.erc20Predicate, dummyERC20, chain);
      }
    }

    /** `_getBalance(token)`. */
    method GetBalance(token: Option<Contract>, chain: Chain)
      modifies this`state
      ensures Snapshot() == C.GetBalance(old(Snapshot()), token, chain)
    {
      if token.None? { return; }
      var balance := chain.balanceOf(token.value.address, state.selectedAddress);
      if balance.None? { return; }
      var name := S.ReadingKey(token.value.address, S.Balance);
      state := state.(readings := state.readings[name := balance.value]);
    }

    /** `_getAllowance(spender, token)`. */
    method GetAllowance(spender: Option<Address>, token: Option<Contract>, chain: Chain)
      modifies this`state
      ensures Snapshot() == C.GetAllowance(old(Snapshot()), spender, token, chain)
    {
      if token.None? { return; }
      var allowance := chain.allowance(token.value.address, state.selectedAddress, spender);
      if allowance.None? { return; }
      var name := S.ReadingKey(token.value.address, S.Allowance);
      state := state.(readings := state.readings[name := allowance.value]);
    }

    /** The handlers `.on('transactionHash' | 'receipt' | 'error', ...)` attaches, fired in
        the order the send emits its events. */
    method Dispatch(outcome: SendOutcome)
      modifies this`state
      ensures state == S.Track(old(state), outcome)
    {
      match outcome
      case Confirmed(hash) =>
        OnTransactionHash(hash);
        OnReceipt();
      case Failed(sentHash, error) =>
        if sentHash.Some? {
          OnTransactionHash(sentHash.value);
        }
        OnError(error);
    }

    /** `_deposit(amount)`. */
    method Deposit(amount: string, chain: Chain)
      modifies this`state
      ensures Snapshot() == C.Deposit(old(Snapshot()), amount, chain)
    {
      DismissTransactionError();
      if web3.None? { return; }
      var wei := chain.toWei(amount);
      if wei.None? || weth.None? { return; }
      var outcome := chain.send(WethDeposit(weth.value, state.selectedAddress, wei.value));
      Dispatch(outcome);
      if outcome.Failed? { return; }
      state := state.(txBeingSent := None);
      GetBalance(weth, chain);
    }

    /** `_bridgeDummyERC20(amount, decimal)`: no handler is attached to the send. */
    method BridgeDummyERC20(amount: string, decimal: nat, chain: Chain)
      modifies this`state
      ensures Snapshot() == C.BridgeDummyERC20(old(Snapshot()), addresses, amount, decimal, chain)
    {
      DismissTransactionError();
      if web3.None? { return; }
      var depositData := chain.encodeDepositData(amount, decimal);
      if depositData.None? || rootChainManager.None? || state.network !in addresses { return; }
      var outcome := chain.send(DepositFor(rootChainManager.value, state.selectedAddress,
                                           addresses[state.network].dummyERC20, depositData.value,
                                           state.selectedAddress));
      if outcome.Failed? { return; }
      state := state.(txBeingSent := None);
    }

    /** `_bridgeEth(amount)`. */
    method BridgeEth(amount: string, chain: Chain)
      modifies this`state
      ensures Snapshot() == C.BridgeEth(old(Snapshot()), amount, chain)
    {
      DismissTransactionError();
      if web3.None? { return; }
      var wei := chain.toWei(amount);
      if wei.None? || rootChainManager.None? { return; }
      var outcome := chain.send(DepositEtherFor(rootChainManager.value, state.selectedAddress,
                                                state.selectedAddress, wei.value));
      Dispatch(outcome);
      if outcome.Failed? { return; }
      state := state.(txBeingSent := None);
    }

    /** `_approve(spender, amount, token)`. */
    method Approve(spender: Address, amount: string, token: Option<Contract>, chain: Chain)
      modifies this`state
      ensures Snapshot() == C.ApproveToken(old(Snapshot()), spender, amount, token, chain)
    {
      DismissTransactionError();
      if web3.None? { return; }
      var wei := chain.toWei(amount);
      if wei.None? || token.None? { return; }
      var outcome := chain.send(Web3.Approve(token.value, spender, wei.value, state.selectedAddress));
      Dispatch(outcome);
      if outcome.Failed? { return; }
      state := state.(txBeingSent := None);
      GetAllowance(Some(spender), token, chain);
    }

    /** `_onTransactionHash(hash)`. */
    method OnTransactionHash(hash: Hash)
      modifies this`state
      ensures state == S.OnTransactionHash(old(state), hash)
    {
      state := state.(txBeingSent := Some(hash));
    }

    /** `_onReceipt()`. */
    method OnReceipt()
      modifies this`state
      ensures state == S.ClearTxBeingSent(old(state))
    {
      state := state.(txBeingSent := None);
    }

    /** `_onError(e)`. */
    method OnError(e: RpcError)
      modifies this`state
      ensures state == S.OnError(old(state), e)
    {
      if e.code == Some(ERROR_CODE_TX_REJECTED_BY_USER) {
        return;
      }
      state := state.(transactionError := Some(e));
    }

    /** `_dismissTransactionError()`. */
    method DismissTransactionError()
      modifies this`state
      ensures state == S.DismissTransactionError(old(state))
    {
      state := state.(transactionError := None);
    }

    /** `_dismissNetworkError()`. */
    method DismissNetworkError()
      modifies this`state
      ensures state == S.DismissNetworkError(old(state))
    {
      state := state.(networkError := None);
    }

    /** `_resetState()`: `setState(initialState)` merges the initial record. */
    method ResetState()
      modifies this`state
      ensures state == S.Reset(old(state))
    {
      var initialState := S.Initial();
      state := initialState.(readings := state.readings - S.DECLARED_READING_KEYS);
    }
  }
}
