/** The component's state record and the single-update transitions its handlers perform
    with `setState`. */
module SessionState {
  import opened Wrappers
  import opened RpcErrors
  import opened Addresses
  import opened Web3

  /** The state record. The four token readings, and any other reading key, live in
      `readings`: `setState({[name]: value})` writes a computed key, and a key that is
      absent reads as undefined. */
  datatype State = State(
    selectedAddress: Option<Address>,
    txBeingSent: Option<Hash>,
    transactionError: Option<RpcError>,
    networkError: Option<string>,
    network: nat,
    readings: map<string, Amount>)

  const WETH_BALANCE: string := "wethBalance"
  const WETH_ALLOWANCE: string := "wethAllowance"
  const DUMMY_ERC20_BALANCE: string := "dummyERC20Balance"
  const DUMMY_ERC20_ALLOWANCE: string := "dummyERC20Allowance"

  /** The reading keys the initial record declares. */
  const DECLARED_READING_KEYS: set<string> :=
    {WETH_BALANCE, WETH_ALLOWANCE, DUMMY_ERC20_BALANCE, DUMMY_ERC20_ALLOWANCE}

  /** The value of a reading key; None is undefined. */
  function ReadingAt(s: State, key: string): Option<Amount> {
    if key in s.readings then Some(s.readings[key]) else None
  }

  /** `initialState`. */
  function Initial(): (r: State)
    ensures IsInitialRecord(r) && r.readings == map[]
  {
    State(None, None, None, None, 0, map[])
  }

  /** The declared fields hold their initial values: no address, no pending transaction, no
      errors, network 0 and all four readings undefined. */
  predicate IsInitialRecord(s: State) {
    && s.selectedAddress == None
    && s.txBeingSent == None
    && s.transactionError == None
    && s.networkError == None
    && s.network == 0
    && (forall key :: key in DECLARED_READING_KEYS ==> ReadingAt(s, key) == None)
  }

  /** A field of the state record; `Reading(key)` is the reading stored under `key`. */
  datatype Field = SelectedAddress | TxBeingSent | TransactionError | NetworkError | Network
                 | Reading(key: string)

  /** `a` and `b` agree on every field outside `changed`. */
  ghost predicate SameExcept(a: State, b: State, changed: set<Field>) {
    && (SelectedAddress !in changed ==> a.selectedAddress == b.selectedAddress)
    && (TxBeingSent !in changed ==> a.txBeingSent == b.txBeingSent)
    && (TransactionError !in changed ==> a.transactionError == b.transactionError)
    && (NetworkError !in changed ==> a.networkError == b.networkError)
    && (Network !in changed ==> a.network == b.network)
    && (forall key :: Reading(key) !in changed ==> ReadingAt(a, key) == ReadingAt(b, key))
  }

  // ----- reading-key derivation (`stateNameMap[address] + 'Balance' / 'Allowance'`) -----

  datatype ReadingKind = Balance | Allowance

  function Suffix(kind: ReadingKind): string {
    match kind
    case Balance => "Balance"
    case Allowance => "Allowance"
  }

  /** `stateNameMap[address]`, which is undefined for an address the map does not list;
      concatenated with a string, undefined becomes the text "undefined". */
  function StateName(contract: Address): string {
    if contract in StateNameMap then StateNameMap[contract] else "undefined"
  }

  /** The state key a read of `contract` is stored under. */
  function ReadingKey(contract: Address, kind: ReadingKind): (key: string)
    ensures |key| > |Suffix(kind)| && key[|key| - |Suffix(kind)|..] == Suffix(kind)
  {
    StateName(contract) + Suffix(kind)
  }

  /** Both WETH addresses store their readings under the `weth` keys, and the dummy token's
      under the `dummyERC20` keys. */
  lemma MappedAddressKeys(kind: ReadingKind)
    ensures ReadingKey(WETH_ADDRESS_1, kind) == (if kind == Balance then WETH_BALANCE else WETH_ALLOWANCE)
    ensures ReadingKey(WETH_ADDRESS_2, kind) == (if kind == Balance then WETH_BALANCE else WETH_ALLOWANCE)
    ensures ReadingKey(DUMMY_ERC20_ADDRESS, kind) ==
            (if kind == Balance then DUMMY_ERC20_BALANCE else DUMMY_ERC20_ALLOWANCE)
  {
    assert StateName(WETH_ADDRESS_1) == StateName(WETH_ADDRESS_2) == "weth";
    assert StateName(DUMMY_ERC20_ADDRESS) == "dummyERC20";
    assert "weth" + Suffix(kind) == (if kind == Balance then WETH_BALANCE else WETH_ALLOWANCE);
    assert "dummyERC20" + Suffix(kind) == (if kind == Balance then DUMMY_ERC20_BALANCE else DUMMY_ERC20_ALLOWANCE);
  }

  /** For each of the three mapped addresses the derived key is one of the four readings
      the initial record declares. */
  lemma MappedAddressHasDeclaredKey(contract: Address, kind: ReadingKind)
    requires contract in StateNameMap
    ensures ReadingKey(contract, kind) in DECLARED_READING_KEYS
  {
    MappedAddressKeys(kind);
  }

  /** An address the map does not list stores its reading under a key the initial record
      does not declare. */
  lemma UnmappedAddressKey(contract: Address, kind: ReadingKind)
    requires contract !in StateNameMap
    ensures ReadingKey(contract, kind) == "undefined" + Suffix(kind)
    ensures ReadingKey(contract, kind) !in DECLARED_READING_KEYS
  {
  }

  // ----- single-update transitions -----

  /** `setState({[key]: value})` for a reading key. */
  function SetReading(s: State, key: string, value: Amount): (r: State)
    ensures ReadingAt(r, key) == Some(value)
    ensures SameExcept(s, r, {Reading(key)})
  {
    s.(readings := s.readings[key := value])
  }

  /** The `setState` of `_initialize`: the account and the network the wallet reported. */
  function SelectAccount(s: State, address: Option<Address>, network: nat): (r: State)
    ensures r.selectedAddress == address && r.network == network
    ensures SameExcept(s, r, {SelectedAddress, Network})
  {
    s.(selectedAddress := address, network := network)
  }

  /** `_onTransactionHash`: the transaction is pending under its hash. */
  function OnTransactionHash(s: State, hash: Hash): (r: State)
    ensures r.txBeingSent == Some(hash)
    ensures SameExcept(s, r, {TxBeingSent})
  {
    s.(txBeingSent := Some(hash))
  }

  /** `setState({txBeingSent: undefined})`, which `_onReceipt` performs and each submit
      performs again once its send resolves. */
  function ClearTxBeingSent(s: State): (r: State)
    ensures r.txBeingSent == None
    ensures SameExcept(s, r, {TxBeingSent})
  {
    s.(txBeingSent := None)
  }

  /** `_onError`: a user rejection is ignored; any other error is recorded. */
  function OnError(s: State, e: RpcError): (r: State)
    ensures IsUserRejection(e) ==> r == s
    ensures !IsUserRejection(e) ==> r.transactionError == Some(e)
    ensures SameExcept(s, r, {TransactionError})
  {
    if IsUserRejection(e) then s else s.(transactionError := Some(e))
  }

  /** `_dismissTransactionError`. */
  function DismissTransactionError(s: State): (r: State)
    ensures r.transactionError == None
    ensures SameExcept(s, r, {TransactionError})
  {
    s.(transactionError := None)
  }

  /** `_dismissNetworkError`. */
  function DismissNetworkError(s: State): (r: State)
    ensures r.networkError == None
    ensures SameExcept(s, r, {NetworkError})
  {
    s.(networkError := None)
  }

  /** `_resetState`: `setState(initialState)` merges the initial record into the state, so
      the declared fields return to their initial values and a reading stored under a key
      the record does not declare survives. */
  function Reset(s: State): (r: State)
    ensures IsInitialRecord(r)
    ensures forall key :: key !in DECLARED_READING_KEYS ==> ReadingAt(r, key) == ReadingAt(s, key)
  {
    State(None, None, None, None, 0, s.readings - DECLARED_READING_KEYS)
  }

  /** A state holding readings only under declared keys resets to exactly the initial
      record. */
  lemma ResetRestoresInitial(s: State)
    requires s.readings.Keys <= DECLARED_READING_KEYS
    ensures Reset(s) == Initial()
  {
  }

  lemma DismissTransactionErrorIdempotent(s: State)
    ensures DismissTransactionError(DismissTransactionError(s)) == DismissTransactionError(s)
  {
  }

  lemma DismissNetworkErrorIdempotent(s: State)
    ensures DismissNetworkError(DismissNetworkError(s)) == DismissNetworkError(s)
  {
  }

  lemma ResetIdempotent(s: State)
    ensures Reset(Reset(s)) == Reset(s)
  {
  }

  /** The three handlers a tracked send attaches, fired in the order the send emits its
      events: a hash, then a receipt or an error. */
  function Track(s: State, outcome: SendOutcome): (r: State)
    // hash then receipt: nothing pending afterwards, nothing else touched
    ensures outcome.Confirmed? ==> r.txBeingSent == None && SameExcept(s, r, {TxBeingSent})
    // an error after a hash leaves that hash pending
    ensures outcome.Failed? ==> r.txBeingSent == (if outcome.sentHash.Some? then outcome.sentHash else s.txBeingSent)
    // a user rejection records nothing; any other error is recorded
    ensures outcome.Failed? ==>
              r.transactionError == (if IsUserRejection(outcome.error) then s.transactionError
                                     else Some(outcome.error))
    ensures SameExcept(s, r, {TxBeingSent, TransactionError})
    // a rejection before any hash leaves the state exactly as it was
    ensures outcome.Failed? && outcome.sentHash.None? && IsUserRejection(outcome.error) ==> r == s
  {
    match outcome
    case Confirmed(hash) => ClearTxBeingSent(OnTransactionHash(s, hash))
    case Failed(hash, error) =>
      OnError(if hash.Some? then OnTransactionHash(s, hash.value) else s, error)
  }
}
