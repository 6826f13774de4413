/** What the component consumes from the wallet and the web3 library, as abstract inputs:
    contract handles, the requests it sends, the outcome of a send, and the chain's answers
    to reads and conversions. */
module Web3 {
  import opened Wrappers
  import opened RpcErrors
  import opened Addresses

  type Hash = string
  /** A balance or allowance as a read returns it, in the token's smallest unit. */
  type Amount = nat
  /** An amount of ether in wei, as `toWei` returns it. */
  type Wei = nat

  datatype Abi = WETHAbi | DummyERC20Abi | RootChainManagerAbi

  /** `new web3.eth.Contract(abi, address)`; `options.address` is `address`. */
  datatype Contract = Contract(abi: Abi, address: Address)

  /** `new Web3(Web3.givenProvider || 'ws://localhost:8545')`. */
  datatype Web3Client = InjectedProvider | WebSocket(url: string)

  const FALLBACK_PROVIDER_URL: string := "ws://localhost:8545"

  function ClientFor(givenProvider: bool): Web3Client {
    if givenProvider then InjectedProvider else WebSocket(FALLBACK_PROVIDER_URL)
  }

  /** A transaction handed to the wallet by `methods.<name>(...).send({from, value})`. */
  datatype Request =
    | WethDeposit(weth: Contract, from: Option<Address>, value: Wei)
    | DepositEtherFor(manager: Contract, user: Option<Address>, from: Option<Address>, value: Wei)
    | DepositFor(manager: Contract, user: Option<Address>, rootToken: Option<Address>,
                 depositData: string, from: Option<Address>)
    | Approve(token: Contract, spender: Address, amount: Wei, from: Option<Address>)

  /** The events a send emits and how its promise settles: `Confirmed` is a transaction
      hash, then a receipt, then resolution; `Failed` is an optional transaction hash, then
      an error, then rejection. */
  datatype SendOutcome =
    | Confirmed(hash: Hash)
    | Failed(sentHash: Option<Hash>, error: RpcError)

  /** The outside world during one operation. A read or conversion answers None where the
      library call rejects or throws.
      - balanceOf(token, owner), allowance(token, owner, spender): contract reads;
      - toWei(amount): `utils.toWei(amount, 'ether')`;
      - encodeDepositData(amount, decimal): `abi.encodeParameter('uint256', toBN(amount * 10 ** decimal))`;
      - send(request): what the wallet and the chain make of a submitted transaction. */
  datatype Chain = Chain(
    balanceOf: (Address, Option<Address>) -> Option<Amount>,
    allowance: (Address, Option<Address>, Option<Address>) -> Option<Amount>,
    toWei: string -> Option<Wei>,
    encodeDepositData: (string, nat) -> Option<string>,
    send: Request -> SendOutcome)
}
