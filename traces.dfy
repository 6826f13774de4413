/** Every way the component's state can change — the connect button, the wallet's
    account and network notifications, the forms and the dismiss buttons — as a sequence
    of events, and what holds in every state such a sequence reaches. */
module Traces {
  import opened Wrappers
  import opened Addresses
  import opened Web3
  import opened SessionState
  import opened Controller

  /** Which instance field an Approve form passes as the token. */
  datatype Token = WethToken | DummyERC20Token

  datatype Event =
    | ConnectWallet(accounts: Option<seq<Address>>, networkVersion: nat, givenProvider: bool)
    | WalletChanged(accounts: Option<seq<Address>>, networkVersion: nat, givenProvider: bool)
    | DepositSubmitted(amount: string)
    | ApproveSubmitted(spender: Address, amount: string, token: Token)
    | AllowanceRequested(spender: Address)
    | BridgeDummyERC20Submitted(amount: string)
    | BridgeEthSubmitted(amount: string)
    | TransactionErrorDismissed
    | NetworkErrorDismissed

  /** An event together with the outside world's answers while it is handled. */
  datatype Step = Step(event: Event, chain: Chain)

  function TokenField(c: Component, token: Token): Option<Contract> {
    match token
    case WethToken => c.weth
    case DummyERC20Token => c.dummyERC20
  }

  /** The handler the event reaches, as `render` and `_connectWallet` wire them. */
  function Apply(c: Component, table: AddressTable, step: Step): (r: Component)
    ensures r.state.networkError.Some? ==> r.state.networkError == c.state.networkError
    ensures !step.event.ConnectWallet? && !step.event.WalletChanged? ==> KeepsSession(c, r)
  {
    var chain := step.chain;
    match step.event
    case ConnectWallet(accounts, n, given) => Initialize(c, table, accounts, n, given, chain)
    case WalletChanged(accounts, n, given) => OnWalletChanged(c, table, accounts, n, given, chain)
    case DepositSubmitted(amount) => Deposit(c, amount, chain)
    case ApproveSubmitted(spender, amount, token) =>
      ApproveToken(c, spender, amount, TokenField(c, token), chain)
    case AllowanceRequested(spender) => GetAllowance(c, Some(spender), c.weth, chain)
    case BridgeDummyERC20Submitted(amount) => BridgeDummyERC20(c, table, amount, BRIDGE_DECIMALS, chain)
    case BridgeEthSubmitted(amount) => BridgeEth(c, amount, chain)
    case TransactionErrorDismissed => c.(state := DismissTransactionError(c.state))
    case NetworkErrorDismissed => c.(state := DismissNetworkError(c.state))
  }

  function Run(c: Component, table: AddressTable, steps: seq<Step>): Component
    decreases |steps|
  {
    if steps == [] then c else Run(Apply(c, table, steps[0]), table, steps[1..])
  }

  // ----- networkError is never set -----

  /** No handler sets `networkError` to a defined value. */
  lemma ApplyKeepsNetworkErrorUndefined(c: Component, table: AddressTable, step: Step)
    requires c.state.networkError == None
    ensures Apply(c, table, step).state.networkError == None
  {
  }

  /** `networkError` starts undefined and stays undefined in every reachable state. */
  lemma {:induction false} NetworkErrorStaysUndefined(c: Component, table: AddressTable, steps: seq<Step>)
    requires c.state.networkError == None
    ensures Run(c, table, steps).state.networkError == None
    decreases |steps|
  {
    if steps != [] {
      ApplyKeepsNetworkErrorUndefined(c, table, steps[0]);
      NetworkErrorStaysUndefined(Apply(c, table, steps[0]), table, steps[1..]);
    }
  }

  // ----- readings stay under declared keys -----

  /** Every WETH and dummy-token address the table configures has a state name. */
  ghost predicate TableMapped(table: AddressTable) {
    forall n :: n in table ==>
      && (HasWeth(table[n]) ==> table[n].weth.value in StateNameMap)
      && (HasBridge(table[n]) ==> table[n].dummyERC20.value in StateNameMap)
  }

  /** The token contracts the component holds have state names, and every reading sits
      under a key the initial record declares. */
  ghost predicate MappedSession(c: Component) {
    && (c.weth.Some? ==> c.weth.value.address in StateNameMap)
    && (c.dummyERC20.Some? ==> c.dummyERC20.value.address in StateNameMap)
    && c.state.readings.Keys <= DECLARED_READING_KEYS
  }

  /** Only reading fields under declared keys are among `changed`. */
  ghost predicate ChangesDeclaredReadings(changed: set<Field>) {
    forall f :: f in changed && f.Reading? ==> f.key in DECLARED_READING_KEYS
  }

  lemma SameExceptKeepsDeclaredReadings(a: State, b: State, changed: set<Field>)
    requires a.readings.Keys <= DECLARED_READING_KEYS
    requires SameExcept(a, b, changed) && ChangesDeclaredReadings(changed)
    ensures b.readings.Keys <= DECLARED_READING_KEYS
  {
    forall key | key !in DECLARED_READING_KEYS
      ensures key !in b.readings
    {
      assert Reading(key) !in changed;
      assert ReadingAt(b, key) == ReadingAt(a, key) == None;
    }
  }

  lemma ApplyKeepsMappedSession(c: Component, table: AddressTable, step: Step)
    requires TableMapped(table) && MappedSession(c)
    ensures MappedSession(Apply(c, table, step))
  {
    var chain := step.chain;
    var r := Apply(c, table, step);
    match step.event
    case ConnectWallet(accounts, n, given) =>
      if accounts.Some? { InitializeKeepsMappedSession(c, table, accounts.value, n, given, chain); }
    case WalletChanged(accounts, n, given) =>
      var c0 := c.(state := Reset(c.state));
      ResetRestoresInitial(c.state);
      if accounts.Some? { InitializeKeepsMappedSession(c0, table, accounts.value, n, given, chain); }
    case DepositSubmitted(amount) =>
      DepositLifecycle(c, amount, chain);
      if Resolved(DepositRequest(c, amount, chain), chain) {
        MappedAddressHasDeclaredKey(c.weth.value.address, Balance);
      }
      SameExceptKeepsDeclaredReadings(c.state, r.state,
        {TxBeingSent, TransactionError}
        + (if Resolved(DepositRequest(c, amount, chain), chain)
           then {Reading(ReadingKey(c.weth.value.address, Balance))} else {}));
    case ApproveSubmitted(spender, amount, token) =>
      var t := TokenField(c, token);
      ApproveLifecycle(c, spender, amount, t, chain);
      if Resolved(ApproveRequest(c, spender, amount, t, chain), chain) {
        MappedAddressHasDeclaredKey(t.value.address, Allowance);
      }
      SameExceptKeepsDeclaredReadings(c.state, r.state,
        {TxBeingSent, TransactionError}
        + (if Resolved(ApproveRequest(c, spender, amount, t, chain), chain)
           then {Reading(ReadingKey(t.value.address, Allowance))} else {}));
    case AllowanceRequested(spender) =>
      if c.weth.Some? {
        MappedAddressHasDeclaredKey(c.weth.value.address, Allowance);
      }
    case BridgeDummyERC20Submitted(amount) =>
      BridgeDummyERC20NeverTracks(c, table, amount, BRIDGE_DECIMALS, chain);
      SameExceptKeepsDeclaredReadings(c.state, r.state, {TxBeingSent, TransactionError});
    case BridgeEthSubmitted(amount) =>
      BridgeEthLifecycle(c, amount, chain);
      SameExceptKeepsDeclaredReadings(c.state, r.state, {TxBeingSent, TransactionError});
    case TransactionErrorDismissed =>
    case NetworkErrorDismissed =>
  }

  lemma InitializeKeepsMappedSession(c: Component, table: AddressTable, accounts: seq<Address>,
                                                        n: nat, given: bool, chain: Chain)
    requires TableMapped(table) && MappedSession(c)
    ensures MappedSession(Initialize(c, table, Some(accounts), n, given, chain))
  {
    var r := Initialize(c, table, Some(accounts), n, given, chain);
    var s1 := SelectAccount(c.state, FirstAccount(accounts), n);
    InitializeGating(c, table, accounts, n, given, chain);
    SameExceptKeepsDeclaredReadings(c.state, s1, {SelectedAddress, Network});
    if n in table {
      var config := table[n];
      if HasWeth(config) { MappedAddressHasDeclaredKey(config.weth.value, Balance); }
      if HasBridge(config) {
        MappedAddressHasDeclaredKey(config.dummyERC20.value, Balance);
        MappedAddressHasDeclaredKey(config.dummyERC20.value, Allowance);
      }
      SameExceptKeepsDeclaredReadings(s1, r.state, InitialReads(config));
    }
  }

  /** When the table's token addresses all have state names, every reading a run stores
      sits under one of the four declared keys. */
  lemma {:induction false} RunKeepsMappedSession(c: Component, table: AddressTable, steps: seq<Step>)
    requires TableMapped(table) && MappedSession(c)
    ensures MappedSession(Run(c, table, steps))
    decreases |steps|
  {
    if steps != [] {
      ApplyKeepsMappedSession(c, table, steps[0]);
      RunKeepsMappedSession(Apply(c, table, steps[0]), table, steps[1..]);
    }
  }

  /** From any state a run reaches, `_resetState` restores exactly the initial record. */
  lemma ResetAfterRunIsInitial(table: AddressTable, steps: seq<Step>)
    requires TableMapped(table)
    ensures Reset(Run(Mounted(), table, steps).state) == Initial()
  {
    RunKeepsMappedSession(Mounted(), table, steps);
    ResetRestoresInitial(Run(Mounted(), table, steps).state);
  }

  /** In every state a run reaches from the mounted component a wallet switch rebuilds the
      session exactly as a fresh connect would. */
  lemma WalletChangedAfterRunRebuildsSession(table: AddressTable, steps: seq<Step>,
                                             accounts: Option<seq<Address>>, n: nat, given: bool, chain: Chain)
    requires TableMapped(table)
    ensures OnWalletChanged(Run(Mounted(), table, steps), table, accounts, n, given, chain).state
         == Initialize(Mounted(), table, accounts, n, given, chain).state
  {
    RunKeepsMappedSession(Mounted(), table, steps);
    WalletChangedRebuildsSession(Run(Mounted(), table, steps), table, accounts, n, given, chain);
  }

  /** A reading stored under an unmapped address's key survives `_resetState`: the reset
      restores the initial record only for states without such a reading. */
  lemma UndeclaredReadingSurvivesReset(s: State, contract: Address, kind: ReadingKind, value: Amount)
    requires contract !in StateNameMap
    ensures ReadingAt(Reset(SetReading(s, ReadingKey(contract, kind), value)), ReadingKey(contract, kind)) == Some(value)
    ensures Reset(SetReading(s, ReadingKey(contract, kind), value)) != Initial()
  {
  }
}
