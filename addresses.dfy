/** The per-network address table the component is configured with, the three contract
    addresses it knows a state name for, and JavaScript truthiness of an optional address. */
module Addresses {
  import opened Wrappers

  type Address = string

  /** One network's entry of the address table: the address of each contract role, or
      undefined when the role is not deployed there. */
  datatype NetworkConfig = NetworkConfig(
    weth: Option<Address>,
    rootChainManager: Option<Address>,
    dummyERC20: Option<Address>,
    erc20Predicate: Option<Address>)

  /** The address table, keyed by network identifier. */
  type AddressTable = map<nat, NetworkConfig>

  /** An optional string as the left operand of `&&`: undefined and the empty string are falsy. */
  predicate Truthy(a: Option<string>) {
    a.Some? && a.value != ""
  }

  /** The network's entry configures the WETH token. */
  predicate HasWeth(config: NetworkConfig) {
    Truthy(config.weth)
  }

  /** The network's entry configures both the root chain manager and the dummy token. */
  predicate HasBridge(config: NetworkConfig) {
    Truthy(config.rootChainManager) && Truthy(config.dummyERC20)
  }

  const WETH_ADDRESS_1: Address := "0xc778417E063141139Fce010982780140Aa0cD5Ab"
  const WETH_ADDRESS_2: Address := "0xA6FA4fB5f76172d178d61B04b0ecd319C5d1C0aa"
  const DUMMY_ERC20_ADDRESS: Address := "0x655F2166b0709cd575202630952D71E2bB0d61Af"

  /** `stateNameMap`: the state name under which a contract's readings are stored. */
  const StateNameMap: map<Address, string> :=
    map[WETH_ADDRESS_1 := "weth", WETH_ADDRESS_2 := "weth", DUMMY_ERC20_ADDRESS := "dummyERC20"]
}
