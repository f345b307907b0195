/** What the endpoints share: networks and assets, request bodies, and the rows that /verify leaves for /settle. */
module Registry {

  datatype Authorization = Authorization(
    from: string, to: string, value: nat, validAfter: nat, validBefore: nat, nonce: string)

  /** The body of /verify. */
  datatype Body = Body(
    network: string, asset: string, requiredAmount: nat, recipient: string, signature: string, auth: Authorization)

  /** A Redis key of either replay layer. */
  datatype Key = NonceKey(nonce: string) | SigKey(sig: string)

  datatype AssetConfig = AssetConfig(contractAddress: string, eip712Version: string)

  datatype Network = Network(chainId: nat, assets: map<string, AssetConfig>)

  type Networks = map<string, Network>

  datatype Lookup = UnsupportedNetwork | UnsupportedAsset | Asset(network: Network, asset: AssetConfig)

  function Resolve(networks: Networks, network: string, asset: string): Lookup {
    if network !in networks then UnsupportedNetwork
    else if asset !in networks[network].assets then UnsupportedAsset
    else Asset(networks[network], networks[network].assets[asset])
  }

  /** One accepted row of payment_verifications. */
  datatype Verification = Verification(nonce: string, signatureHash: string)

  /** One row of payment_requests with its accepted verifications. Rows are never updated. */
  datatype PaymentRequest = PaymentRequest(
    seller: string, buyer: string, network: string, asset: string,
    amount: nat, expiresAtMs: nat, accepted: seq<Verification>)

  type RequestId = string

  type Requests = map<RequestId, PaymentRequest>

  /** /verify only ever adds requests. */
  ghost predicate Grows(before: Requests, after: Requests) {
    forall r :: r in before ==> r in after && after[r] == before[r]
  }
}
