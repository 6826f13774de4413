/** `render`: which screen the component shows and which sections the main screen holds. */
module View {
  import opened Wrappers
  import opened RpcErrors
  import opened Addresses
  import opened Web3
  import opened SessionState
  import opened Controller
  import T = Traces

  datatype Screen =
    | NoWalletDetected
    | ConnectWallet(networkError: Option<string>)
      /** `pending`: the hash of the waiting banner; `errorMessage`: the error banner and the
          message it shows; the WETH and bridge sections. */
    | Main(pending: Option<Hash>, errorMessage: Option<Option<string>>, address: Address, network: nat,
           wethSection: bool, bridgeSection: bool)
      /** `contractAddress[network]` is undefined and reading a role of it throws. */
    | RenderTypeError

  /** `render()`, given whether the browser injected a wallet (`window.ethereum`). */
  function Render(walletPresent: bool, s: State, table: AddressTable): (v: Screen)
    ensures v.NoWalletDetected? <==> !walletPresent
    ensures v.ConnectWallet? <==> walletPresent && !Truthy(s.selectedAddress)
    ensures v.ConnectWallet? ==> v.networkError == s.networkError
    ensures v.RenderTypeError? <==> walletPresent && Truthy(s.selectedAddress) && s.network !in table
    ensures v.Main? ==> v.address == s.selectedAddress.value && v.network == s.network && s.network in table
    ensures v.Main? ==> v.wethSection == HasWeth(table[s.network])
    ensures v.Main? ==> v.bridgeSection == HasBridge(table[s.network])
    ensures v.Main? ==> (v.pending.Some? <==> Truthy(s.txBeingSent)) && (v.pending.Some? ==> v.pending == s.txBeingSent)
    ensures v.Main? ==> (v.errorMessage.Some? <==> s.transactionError.Some?)
    ensures v.Main? && s.transactionError.Some? ==>
              v.errorMessage.value == GetRpcErrorMessage(s.transactionError.value)
  {
    if !walletPresent then NoWalletDetected
    else if !Truthy(s.selectedAddress) then ConnectWallet(s.networkError)
    else if s.network !in table then RenderTypeError
    else
      Main(if Truthy(s.txBeingSent) then s.txBeingSent else None,
           if s.transactionError.Some? then Some(GetRpcErrorMessage(s.transactionError.value)) else None,
           s.selectedAddress.value, s.network,
           HasWeth(table[s.network]), HasBridge(table[s.network]))
  }

  /** The connect screen never shows a network error in a state reachable from the
      mounted component. */
  lemma ConnectScreenShowsNoNetworkError(walletPresent: bool, table: AddressTable, steps: seq<T.Step>)
    ensures var v := Render(walletPresent, T.Run(Mounted(), table, steps).state, table);
            v.ConnectWallet? ==> v.networkError == None
  {
    T.NetworkErrorStaysUndefined(Mounted(), table, steps);
  }

  /** After connecting with an account on a configured network, the main screen shows the
      WETH section exactly when `_initialize` created the WETH contract from the network's
      entry, and the bridge section exactly when it created the bridge contracts. */
  lemma SectionsMatchInitializedContracts(c: Component, table: AddressTable, accounts: seq<Address>,
                                          n: nat, given: bool, chain: Chain)
    requires n in table && |accounts| > 0 && accounts[0] != ""
    ensures var r := Initialize(c, table, Some(accounts), n, given, chain);
            var v := Render(true, r.state, table);
            && v.Main?
            && (v.wethSection ==> r.weth == Some(Contract(WETHAbi, table[n].weth.value)))
            && (v.bridgeSection ==>
                  && r.rootChainManager == Some(Contract(RootChainManagerAbi, table[n].rootChainManager.value))
                  && r.dummyERC20 == Some(Contract(DummyERC20Abi, table[n].dummyERC20.value)))
            && (!v.wethSection ==> r.weth == c.weth)
            && (!v.bridgeSection ==> r.dummyERC20 == c.dummyERC20 && r.rootChainManager == c.rootChainManager)
  {
  }
}
