/** The component as a value — its state record plus the instance fields `_web3`, `_weth`,
    `_rootChainManager` and `_dummyERC20` — and each handler as a function from one
    component to the next. These functions specify the methods of `DappComponent.Dapp`. */
module Controller {
  import opened Wrappers
  import opened RpcErrors
  import opened Addresses
  import opened Web3
  import opened SessionState

  datatype Component = Component(
    state: State,
    web3: Option<Web3Client>,
    weth: Option<Contract>,
    rootChainManager: Option<Contract>,
    dummyERC20: Option<Contract>)

  /** The component as constructed: the initial record and no instance fields. */
  function Mounted(): Component {
    Component(Initial(), None, None, None, None)
  }

  /** The decimals `render` passes to `_bridgeDummyERC20`. */
  const BRIDGE_DECIMALS: nat := 18

  /** The instance fields, the selected account and the network are left as they were. */
  predicate KeepsSession(c: Component, r: Component) {
    && r.web3 == c.web3 && r.weth == c.weth
    && r.rootChainManager == c.rootChainManager && r.dummyERC20 == c.dummyERC20
    && r.state.selectedAddress == c.state.selectedAddress && r.state.network == c.state.network
  }

  // ----- reads -----

  /** `_getBalance(token)`: reads the selected account's balance and stores it under the
      token's reading key. An undefined token throws and a rejected read stores nothing. */
  function GetBalance(c: Component, token: Option<Contract>, chain: Chain): (r: Component)
    ensures KeepsSession(c, r)
    ensures token.Some? ==>
      && SameExcept(c.state, r.state, {Reading(ReadingKey(token.value.address, Balance))})
      && (chain.balanceOf(token.value.address, c.state.selectedAddress).Some? ==>
            ReadingAt(r.state, ReadingKey(token.value.address, Balance))
            == chain.balanceOf(token.value.address, c.state.selectedAddress))
    ensures token.None? || chain.balanceOf(token.value.address, c.state.selectedAddress).None? ==> r == c
  {
    if token.None? then c
    else
      match chain.balanceOf(token.value.address, c.state.selectedAddress)
      case None => c
      case Some(balance) =>
        c.(state := SetReading(c.state, ReadingKey(token.value.address, Balance), balance))
  }

  /** `_getAllowance(spender, token)`: reads what `spender` may move from the selected
      account and stores it under the token's allowance key. */
  function GetAllowance(c: Component, spender: Option<Address>, token: Option<Contract>, chain: Chain): (r: Component)
    ensures KeepsSession(c, r)
    ensures token.Some? ==>
      && SameExcept(c.state, r.state, {Reading(ReadingKey(token.value.address, Allowance))})
      && (chain.allowance(token.value.address, c.state.selectedAddress, spender).Some? ==>
            ReadingAt(r.state, ReadingKey(token.value.address, Allowance))
            == chain.allowance(token.value.address, c.state.selectedAddress, spender))
    ensures token.None? || chain.allowance(token.value.address, c.state.selectedAddress, spender).None? ==> r == c
  {
    if token.None? then c
    else
      match chain.allowance(token.value.address, c.state.selectedAddress, spender)
      case None => c
      case Some(allowance) =>
        c.(state := SetReading(c.state, ReadingKey(token.value.address, Allowance), allowance))
  }

  // ----- initialisation -----

  /** The first account `enable` returned, undefined when it returned none. */
  function FirstAccount(accounts: seq<Address>): Option<Address> {
    if |accounts| > 0 then Some(accounts[0]) else None
  }

  /** The reading fields `_initialize` reads for a network entry. */
  function InitialReads(config: NetworkConfig): set<Field> {
    (if HasWeth(config) then {Reading(ReadingKey(config.weth.value, Balance))} else {})
    + (if HasBridge(config)
       then {Reading(ReadingKey(config.dummyERC20.value, Balance)),
             Reading(ReadingKey(config.dummyERC20.value, Allowance))}
       else {})
  }

  /** `_initialize`, given what `enable` resolved to (None when it rejects), the wallet's
      network and whether the browser injected a provider. An unknown network makes
      `contractAddress[network].weth` throw once the account is stored. */
  function Initialize(c: Component, table: AddressTable, accounts: Option<seq<Address>>,
                      networkVersion: nat, givenProvider: bool, chain: Chain): (r: Component)
    ensures accounts.None? ==> r == c
    ensures accounts.Some? ==>
      && r.state.selectedAddress == FirstAccount(accounts.value)
      && r.state.network == networkVersion
      && r.web3 == Some(ClientFor(givenProvider))
    ensures && r.state.txBeingSent == c.state.txBeingSent
            && r.state.transactionError == c.state.transactionError
            && r.state.networkError == c.state.networkError
  {
    if accounts.None? then c
    else
      var c1 := c.(state := SelectAccount(c.state, FirstAccount(accounts.value), networkVersion),
                   web3 := Some(ClientFor(givenProvider)));
      if networkVersion !in table then c1
      else
        var config := table[networkVersion];
        var c2 :=
          if HasWeth(config) then
            var weth := Some(Contract(WETHAbi, config.weth.value));
            GetBalance(c1.(weth := weth), weth, chain)
          else c1;
        if HasBridge(config) then
          var dummy := Some(Contract(DummyERC20Abi, config.dummyERC20.value));
          var c3 := c2.(rootChainManager := Some(Contract(RootChainManagerAbi, config.rootChainManager.value)),
                        dummyERC20 := dummy);
          GetAllowance(GetBalance(c3, dummy, chain), config.erc20Predicate, dummy, chain)
        else c2
  }

  /** The body of the `accountsChanged` and `networkChanged` listeners: `_resetState`, then
      `_initialize`. */
  function OnWalletChanged(c: Component, table: AddressTable, accounts: Option<seq<Address>>,
                           networkVersion: nat, givenProvider: bool, chain: Chain): (r: Component)
    ensures r.state.txBeingSent == None && r.state.transactionError == None && r.state.networkError == None
    ensures accounts.None? ==>
      && IsInitialRecord(r.state)
      && r.web3 == c.web3 && r.weth == c.weth
      && r.rootChainManager == c.rootChainManager && r.dummyERC20 == c.dummyERC20
  {
    Initialize(c.(state := Reset(c.state)), table, accounts, networkVersion, givenProvider, chain)
  }

  // ----- submits -----

  /** The transaction `_deposit` sends, or None when building it throws (no client, an
      amount `toWei` rejects, no WETH contract). */
  function DepositRequest(c: Component, amount: string, chain: Chain): Option<Request> {
    if c.web3.None? || chain.toWei(amount).None? || c.weth.None? then None
    else Some(WethDeposit(c.weth.value, c.state.selectedAddress, chain.toWei(amount).value))
  }

  /** The transaction `_bridgeEth` sends. */
  function BridgeEthRequest(c: Component, amount: string, chain: Chain): Option<Request> {
    if c.web3.None? || chain.toWei(amount).None? || c.rootChainManager.None? then None
    else Some(DepositEtherFor(c.rootChainManager.value, c.state.selectedAddress,
                              c.state.selectedAddress, chain.toWei(amount).value))
  }

  /** The transaction `_approve` sends for `token`. */
  function ApproveRequest(c: Component, spender: Address, amount: string, token: Option<Contract>,
                          chain: Chain): Option<Request>
  {
    if c.web3.None? || chain.toWei(amount).None? || token.None? then None
    else Some(Approve(token.value, spender, chain.toWei(amount).value, c.state.selectedAddress))
  }

  /** The transaction `_bridgeDummyERC20` sends; the root token is looked up in the
      address table, which throws for an unknown network. */
  function BridgeDummyERC20Request(c: Component, table: AddressTable, amount: string, decimal: nat,
                                   chain: Chain): Option<Request>
  {
    if c.web3.None? || chain.encodeDepositData(amount, decimal).None? || c.rootChainManager.None?
       || c.state.network !in table
    then None
    else Some(DepositFor(c.rootChainManager.value, c.state.selectedAddress,
                         table[c.state.network].dummyERC20,
                         chain.encodeDepositData(amount, decimal).value, c.state.selectedAddress))
  }

  /** The send shared by `_deposit`, `_bridgeEth` and `_approve`: the three handlers track
      the send, and when it resolves `txBeingSent` is cleared once more. A send that
      rejects ends the submit. */
  function SendTracked(s: State, request: Option<Request>, chain: Chain): State {
    if request.None? then s
    else
      var outcome := chain.send(request.value);
      if outcome.Confirmed? then ClearTxBeingSent(Track(s, outcome)) else Track(s, outcome)
  }

  /** The submit's send was made and resolved, so the code after its `await` runs. */
  predicate Resolved(request: Option<Request>, chain: Chain) {
    request.Some? && chain.send(request.value).Confirmed?
  }

  /** `_deposit(amount)`: clear the error, send, re-read the WETH balance. */
  function Deposit(c: Component, amount: string, chain: Chain): (r: Component)
    ensures KeepsSession(c, r) && r.state.networkError == c.state.networkError
    ensures r.state.transactionError == ErrorAfterSubmit(OutcomeOf(DepositRequest(c, amount, chain), chain))
    ensures r.state.txBeingSent
            == PendingAfterSubmit(c.state.txBeingSent, OutcomeOf(DepositRequest(c, amount, chain), chain))
  {
    var c1 := c.(state := DismissTransactionError(c.state));
    var request := DepositRequest(c1, amount, chain);
    var c2 := c1.(state := SendTracked(c1.state, request, chain));
    if Resolved(request, chain) then GetBalance(c2, c2.weth, chain) else c2
  }

  /** `_bridgeEth(amount)`: clear the error and send; nothing is re-read. */
  function BridgeEth(c: Component, amount: string, chain: Chain): (r: Component)
    ensures KeepsSession(c, r) && r.state.networkError == c.state.networkError
    ensures r.state.readings == c.state.readings
    ensures r.state.transactionError == ErrorAfterSubmit(OutcomeOf(BridgeEthRequest(c, amount, chain), chain))
    ensures r.state.txBeingSent
            == PendingAfterSubmit(c.state.txBeingSent, OutcomeOf(BridgeEthRequest(c, amount, chain), chain))
  {
    var c1 := c.(state := DismissTransactionError(c.state));
    c1.(state := SendTracked(c1.state, BridgeEthRequest(c1, amount, chain), chain))
  }

  /** `_approve(spender, amount, token)`: clear the error, send, re-read the allowance of
      the same spender. */
  function ApproveToken(c: Component, spender: Address, amount: string, token: Option<Contract>,
                        chain: Chain): (r: Component)
    ensures KeepsSession(c, r) && r.state.networkError == c.state.networkError
    ensures r.state.transactionError
            == ErrorAfterSubmit(OutcomeOf(ApproveRequest(c, spender, amount, token, chain), chain))
    ensures r.state.txBeingSent
            == PendingAfterSubmit(c.state.txBeingSent, OutcomeOf(ApproveRequest(c, spender, amount, token, chain), chain))
  {
    var c1 := c.(state := DismissTransactionError(c.state));
    var request := ApproveRequest(c1, spender, amount, token, chain);
    var c2 := c1.(state := SendTracked(c1.state, request, chain));
    if Resolved(request, chain) then GetAllowance(c2, Some(spender), token, chain) else c2
  }

  /** `_bridgeDummyERC20(amount, decimal)`: clear the error and send with no handler
      attached; only a resolved send clears `txBeingSent`. */
  function BridgeDummyERC20(c: Component, table: AddressTable, amount: string, decimal: nat,
                            chain: Chain): (r: Component)
    ensures KeepsSession(c, r) && r.state.networkError == c.state.networkError
    ensures r.state.readings == c.state.readings && r.state.transactionError == None
    ensures r.state.txBeingSent == None || r.state.txBeingSent == c.state.txBeingSent
  {
    var c1 := c.(state := DismissTransactionError(c.state));
    if Resolved(BridgeDummyERC20Request(c1, table, amount, decimal, chain), chain)
    then c1.(state := ClearTxBeingSent(c1.state))
    else c1
  }

  // ----- properties of the handlers -----

  /** The outcome of the submit's send, or None when no transaction was sent. */
  function OutcomeOf(request: Option<Request>, chain: Chain): Option<SendOutcome> {
    if request.Some? then Some(chain.send(request.value)) else None
  }

  /** The error a tracked submit leaves behind: the one its send failed with, unless the
      user rejected it; none otherwise, since the submit starts by clearing it. */
  function ErrorAfterSubmit(outcome: Option<SendOutcome>): Option<RpcError> {
    if outcome.Some? && outcome.value.Failed? && !IsUserRejection(outcome.value.error)
    then Some(outcome.value.error) else None
  }

  /** What a tracked submit leaves pending: nothing after hash and receipt; after an error,
      the hash sent before it, if any, else what was pending before the submit. */
  function PendingAfterSubmit(before: Option<Hash>, outcome: Option<SendOutcome>): Option<Hash> {
    if outcome.None? then before
    else if outcome.value.Confirmed? then None
    else if outcome.value.sentHash.Some? then outcome.value.sentHash
    else before
  }

  /** The tracked send of `_deposit`, `_bridgeEth` and `_approve`, applied after the
      submit cleared the error. */
  lemma SendTrackedEffect(s: State, request: Option<Request>, chain: Chain)
    requires s.transactionError == None
    ensures var r := SendTracked(s, request, chain);
            && r.transactionError == ErrorAfterSubmit(OutcomeOf(request, chain))
            && r.txBeingSent == PendingAfterSubmit(s.txBeingSent, OutcomeOf(request, chain))
            && SameExcept(s, r, {TxBeingSent, TransactionError})
  {
  }

  /** `_deposit` sends `toWei(amount)` from the selected account to the WETH contract,
      tracks the send, and after a receipt re-reads the WETH balance; it keeps the
      instance fields and touches no field beyond the pending hash, the error and that
      balance. */
  lemma DepositLifecycle(c: Component, amount: string, chain: Chain)
    ensures var request := DepositRequest(c, amount, chain);
            var r := Deposit(c, amount, chain);
            && (request.Some? <==> c.web3.Some? && c.weth.Some? && chain.toWei(amount).Some?)
            && (request.Some? ==> request.value == WethDeposit(c.weth.value, c.state.selectedAddress,
                                                                chain.toWei(amount).value))
            && r.web3 == c.web3 && r.weth == c.weth
            && r.rootChainManager == c.rootChainManager && r.dummyERC20 == c.dummyERC20
            && r.state.transactionError == ErrorAfterSubmit(OutcomeOf(request, chain))
            && r.state.txBeingSent == PendingAfterSubmit(c.state.txBeingSent, OutcomeOf(request, chain))
            && (!Resolved(request, chain) ==> SameExcept(c.state, r.state, {TxBeingSent, TransactionError}))
            && (Resolved(request, chain) ==>
                  var key := ReadingKey(c.weth.value.address, Balance);
                  && SameExcept(c.state, r.state, {TxBeingSent, TransactionError, Reading(key)})
                  && ReadingAt(r.state, key) ==
                     match chain.balanceOf(c.weth.value.address, c.state.selectedAddress)
                     case Some(balance) => Some(balance)
                     case None => ReadingAt(c.state, key))
  {
  }

  /** `_bridgeEth` sends `toWei(amount)` from the selected account to the root chain
      manager for the same account, tracks the send and re-reads nothing. */
  lemma BridgeEthLifecycle(c: Component, amount: string, chain: Chain)
    ensures var request := BridgeEthRequest(c, amount, chain);
            var r := BridgeEth(c, amount, chain);
            && (request.Some? <==> c.web3.Some? && c.rootChainManager.Some? && chain.toWei(amount).Some?)
            && (request.Some? ==> request.value == DepositEtherFor(c.rootChainManager.value, c.state.selectedAddress,
                                                                    c.state.selectedAddress, chain.toWei(amount).value))
            && r.web3 == c.web3 && r.weth == c.weth
            && r.rootChainManager == c.rootChainManager && r.dummyERC20 == c.dummyERC20
            && r.state.transactionError == ErrorAfterSubmit(OutcomeOf(request, chain))
            && r.state.txBeingSent == PendingAfterSubmit(c.state.txBeingSent, OutcomeOf(request, chain))
            && SameExcept(c.state, r.state, {TxBeingSent, TransactionError})
  {
  }

  /** `_approve` lets `spender` move `toWei(amount)` of `token`, tracks the send, and after
      a receipt re-reads the allowance of that same spender on that same token. */
  lemma ApproveLifecycle(c: Component, spender: Address, amount: string,
                                            token: Option<Contract>, chain: Chain)
    ensures var request := ApproveRequest(c, spender, amount, token, chain);
            var r := ApproveToken(c, spender, amount, token, chain);
            && (request.Some? <==> c.web3.Some? && token.Some? && chain.toWei(amount).Some?)
            && (request.Some? ==> request.value == Approve(token.value, spender, chain.toWei(amount).value,
                                                            c.state.selectedAddress))
            && r.web3 == c.web3 && r.weth == c.weth
            && r.rootChainManager == c.rootChainManager && r.dummyERC20 == c.dummyERC20
            && r.state.transactionError == ErrorAfterSubmit(OutcomeOf(request, chain))
            && r.state.txBeingSent == PendingAfterSubmit(c.state.txBeingSent, OutcomeOf(request, chain))
            && (!Resolved(request, chain) ==> SameExcept(c.state, r.state, {TxBeingSent, TransactionError}))
            && (Resolved(request, chain) ==>
                  var key := ReadingKey(token.value.address, Allowance);
                  && SameExcept(c.state, r.state, {TxBeingSent, TransactionError, Reading(key)})
                  && ReadingAt(r.state, key) ==
                     match chain.allowance(token.value.address, c.state.selectedAddress, Some(spender))
                     case Some(allowance) => Some(allowance)
                     case None => ReadingAt(c.state, key))
  {
  }

  /** `_bridgeDummyERC20` attaches no handler: it never records an error and never marks a
      hash pending; only a resolved send clears what was pending. */
  lemma BridgeDummyERC20NeverTracks(c: Component, table: AddressTable, amount: string, decimal: nat, chain: Chain)
    ensures var request := BridgeDummyERC20Request(c, table, amount, decimal, chain);
            var r := BridgeDummyERC20(c, table, amount, decimal, chain);
            && (request.Some? ==>
                  && c.state.network in table
                  && request.value == DepositFor(c.rootChainManager.value, c.state.selectedAddress,
                                                 table[c.state.network].dummyERC20,
                                                 chain.encodeDepositData(amount, decimal).value,
                                                 c.state.selectedAddress))
            && r.web3 == c.web3 && r.weth == c.weth
            && r.rootChainManager == c.rootChainManager && r.dummyERC20 == c.dummyERC20
            && r.state.transactionError == None
            && r.state.txBeingSent == (if Resolved(request, chain) then None else c.state.txBeingSent)
            && SameExcept(c.state, r.state, {TxBeingSent, TransactionError})
  {
    assert BridgeDummyERC20Request(c.(state := DismissTransactionError(c.state)), table, amount, decimal, chain)
        == BridgeDummyERC20Request(c, table, amount, decimal, chain);
  }

  /** `_initialize` stores the account and network and creates a client; it creates a
      contract, and reads it, only for a role the network's entry configures, and touches
      no reading beyond those reads. An unknown network stops it after the account. */
  lemma InitializeGating(c: Component, table: AddressTable, accounts: seq<Address>,
                                            networkVersion: nat, givenProvider: bool, chain: Chain)
    ensures var r := Initialize(c, table, Some(accounts), networkVersion, givenProvider, chain);
            var s1 := SelectAccount(c.state, FirstAccount(accounts), networkVersion);
            && r.web3 == Some(ClientFor(givenProvider))
            && (networkVersion !in table ==>
                  r.state == s1 && r.weth == c.weth && r.rootChainManager == c.rootChainManager
                  && r.dummyERC20 == c.dummyERC20)
            && (networkVersion in table ==>
                  var config := table[networkVersion];
                  && SameExcept(s1, r.state, InitialReads(config))
                  && r.weth == (if HasWeth(config) then Some(Contract(WETHAbi, config.weth.value)) else c.weth)
                  && r.rootChainManager ==
                     (if HasBridge(config) then Some(Contract(RootChainManagerAbi, config.rootChainManager.value))
                      else c.rootChainManager)
                  && r.dummyERC20 ==
                     (if HasBridge(config) then Some(Contract(DummyERC20Abi, config.dummyERC20.value))
                      else c.dummyERC20))
  {
  }

  /** With the weth role configured, and its balance key not shared with the dummy
      token's, the WETH balance the chain reports for the first account is stored. */
  lemma InitializeReadsWethBalance(c: Component, table: AddressTable, accounts: seq<Address>,
                                                      networkVersion: nat, givenProvider: bool, chain: Chain,
                                                      balance: Amount)
    requires networkVersion in table && HasWeth(table[networkVersion])
    requires chain.balanceOf(table[networkVersion].weth.value, FirstAccount(accounts)) == Some(balance)
    requires HasBridge(table[networkVersion]) ==>
               ReadingKey(table[networkVersion].weth.value, Balance)
               !in {ReadingKey(table[networkVersion].dummyERC20.value, Balance),
                    ReadingKey(table[networkVersion].dummyERC20.value, Allowance)}
    ensures var r := Initialize(c, table, Some(accounts), networkVersion, givenProvider, chain);
            ReadingAt(r.state, ReadingKey(table[networkVersion].weth.value, Balance)) == Some(balance)
  {
  }

  /** With the bridge configured, the dummy token's balance for the first account and its
      allowance for the spender `erc20Predicate` are stored under the dummy token's keys. */
  lemma InitializeReadsBridgeReadings(c: Component, table: AddressTable, accounts: seq<Address>,
                                      networkVersion: nat, givenProvider: bool, chain: Chain,
                                      balance: Amount, allowance: Amount)
    requires networkVersion in table && HasBridge(table[networkVersion])
    requires chain.balanceOf(table[networkVersion].dummyERC20.value, FirstAccount(accounts)) == Some(balance)
    requires chain.allowance(table[networkVersion].dummyERC20.value, FirstAccount(accounts),
                             table[networkVersion].erc20Predicate) == Some(allowance)
    ensures var r := Initialize(c, table, Some(accounts), networkVersion, givenProvider, chain);
            var dummy := table[networkVersion].dummyERC20.value;
            && ReadingAt(r.state, ReadingKey(dummy, Balance)) == Some(balance)
            && ReadingAt(r.state, ReadingKey(dummy, Allowance)) == Some(allowance)
  {
  }

  /** What `_initialize` makes of the state record depends on that record and its inputs
      only, not on contracts left over from an earlier session. */
  lemma InitializeStateIgnoresOldContracts(c: Component, d: Component, table: AddressTable,
                                           accounts: Option<seq<Address>>, networkVersion: nat,
                                           givenProvider: bool, chain: Chain)
    requires c.state == d.state
    ensures Initialize(c, table, accounts, networkVersion, givenProvider, chain).state
         == Initialize(d, table, accounts, networkVersion, givenProvider, chain).state
  {
  }

  /** A wallet switch rebuilds the session: resetting and re-initialising yields the state
      a fresh component reaches by connecting with the same wallet answers, provided no
      reading sits under an undeclared key. */
  lemma WalletChangedRebuildsSession(c: Component, table: AddressTable,
                                                        accounts: Option<seq<Address>>, networkVersion: nat,
                                                        givenProvider: bool, chain: Chain)
    requires c.state.readings.Keys <= DECLARED_READING_KEYS
    ensures OnWalletChanged(c, table, accounts, networkVersion, givenProvider, chain).state
         == Initialize(Mounted(), table, accounts, networkVersion, givenProvider, chain).state
  {
  }

  /** When the user rejects every request in the wallet (code 4001, before any hash), each
      submit only clears the transaction error: nothing is recorded, nothing is marked
      pending, nothing is re-read. */
  lemma UserRejectionOnlyClearsError(c: Component, table: AddressTable, spender: Address, amount: string,
                                     decimal: nat, token: Option<Contract>, chain: Chain)
    requires forall request :: chain.send(request).Failed? && chain.send(request).sentHash.None?
                               && IsUserRejection(chain.send(request).error)
    ensures Deposit(c, amount, chain) == c.(state := DismissTransactionError(c.state))
    ensures BridgeEth(c, amount, chain) == c.(state := DismissTransactionError(c.state))
    ensures ApproveToken(c, spender, amount, token, chain) == c.(state := DismissTransactionError(c.state))
    ensures BridgeDummyERC20(c, table, amount, decimal, chain) == c.(state := DismissTransactionError(c.state))
  {
  }
}
