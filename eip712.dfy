/**
 * The typed structured data that a voucher signature covers, in the shape
 * of EIP-712: a list of struct types, the primary type, the domain and the
 * message.
 */
module Eip712 {

  /** One `{"name": ..., "type": ...}` entry of a struct type. */
  datatype Member = Member(name: string, typ: string)

  datatype StructType = StructType(name: string, members: seq<Member>)

  /** The `domain` object: the values of the EIP712Domain struct. */
  datatype Domain = Domain(name: string, version: string, chainId: int, verifyingContract: string)

  /** The `message` object: the values of the Voucher struct. */
  datatype VoucherMessage = VoucherMessage(
    id: string,
    buyer: string,
    seller: string,
    valueAggregate: int,
    asset: string,
    timestamp: int,
    nonce: int,
    escrow: string,
    chainId: int,
    expiry: int)

  datatype TypedData = TypedData(
    types: seq<StructType>,
    primaryType: string,
    domain: Domain,
    message: VoucherMessage)

  const DOMAIN_TYPE_NAME := "EIP712Domain"
  const DOMAIN_NAME := "DeferredPaymentEscrow"
  const DOMAIN_VERSION := "1"
  const PRIMARY_TYPE := "Voucher"

  const DomainType := StructType(DOMAIN_TYPE_NAME, [
    Member("name", "string"),
    Member("version", "string"),
    Member("chainId", "uint256"),
    Member("verifyingContract", "address")
  ])

  const VoucherType := StructType(PRIMARY_TYPE, [
    Member("id", "bytes32"),
    Member("buyer", "address"),
    Member("seller", "address"),
    Member("valueAggregate", "uint256"),
    Member("asset", "address"),
    Member("timestamp", "uint64"),
    Member("nonce", "uint256"),
    Member("escrow", "address"),
    Member("chainId", "uint256"),
    Member("expiry", "uint64")
  ])

  /**
   * The `{k: v for k, v in types.items() if k != "EIP712Domain"}` step that
   * hands only the message types to the encoder, order kept.
   */
  function MessageTypes(types: seq<StructType>): (r: seq<StructType>)
    ensures forall t :: t in r <==> t in types && t.name != DOMAIN_TYPE_NAME
    ensures |r| <= |types|
  {
    if types == [] then []
    else if types[0].name == DOMAIN_TYPE_NAME then MessageTypes(types[1..])
    else [types[0]] + MessageTypes(types[1..])
  }
}
