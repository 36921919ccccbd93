/**
 * The libraries the voucher code calls but does not define. Each is a
 * function value in `Env`; what the code relies on about them is stated
 * as a law predicate, and only the lemmas that need a law require it.
 */
module Foreign {
  import opened Wrappers
  import opened Text
  import opened JsonValues
  import opened Eip712

  /** An eth_account `Account`, identified by its private key. */
  datatype Account = Account(privateKey: seq<Byte>)

  /** The `SignableMessage` produced by `encode_typed_data`. */
  datatype SignableMessage = SignableMessage(bytes: seq<Byte>)

  datatype Env = Env(
    /** eth_utils `to_checksum_address` (EIP-55). */
    checksum: string -> string,
    /** `int(get_chain_id(network))`; None when the network is unknown. */
    chainIdOf: string -> Option<int>,
    /** eth_account `encode_typed_data(domain_data, message_types, message_data)`. */
    encodeTypedData: (Domain, seq<StructType>, VoucherMessage) -> SignableMessage,
    /** `account.sign_message(m).signature`, the raw signature bytes. */
    signMessage: (Account, SignableMessage) -> seq<Byte>,
    /** `Account.recover_message(m, signature=s)`; None when `s` is malformed. */
    recoverMessage: (SignableMessage, string) -> Option<string>,
    /** `account.address`. */
    addressOf: Account -> string,
    /** `HexBytes.hex()`, which library versions render with or without "0x". */
    hexOf: seq<Byte> -> string,
    /** `json.dumps` and `json.loads`; None when the text is not JSON. */
    jsonDumps: Json -> string,
    jsonLoads: string -> Option<Json>,
    /** `safe_base64_encode` and `safe_base64_decode`; None on bad base64. */
    base64Encode: string -> string,
    base64Decode: string -> Option<string>)

  /**
   * EIP-55 checksumming only changes letter case, and its output depends
   * only on the lower-cased input. This is assumed of every string, which
   * holds of `to_checksum_address` for "0x"-prefixed addresses only: an
   * address written without the prefix gains it.
   */
  ghost predicate ChecksumLaws(env: Env)
  {
    && (forall a :: Lower(env.checksum(a)) == Lower(a))
    && (forall a, b :: Lower(a) == Lower(b) ==> env.checksum(a) == env.checksum(b))
  }

  /**
   * A signature is 65 bytes, recovering it over the message it was made for
   * gives the signer's address, and `hex()` gives the lower-case digits with
   * or without the "0x" prefix.
   */
  ghost predicate SignatureLaws(env: Env)
  {
    && (forall k, m :: |env.signMessage(k, m)| == 65)
    && (forall k, m :: env.recoverMessage(m, "0x" + Hex(env.signMessage(k, m))) == Some(env.addressOf(k)))
    && (forall bs :: env.hexOf(bs) == Hex(bs) || env.hexOf(bs) == "0x" + Hex(bs))
  }

  /** JSON and base64 each give back exactly what they were handed. */
  ghost predicate CodecLaws(env: Env)
  {
    && (forall j :: env.jsonLoads(env.jsonDumps(j)) == Some(j))
    && (forall s :: env.base64Decode(env.base64Encode(s)) == Some(s))
  }

  /** The one entry of the chain table the repository's tests use. */
  ghost predicate KnowsBaseSepolia(env: Env)
  {
    env.chainIdOf("base-sepolia") == Some(84532)
  }

  lemma ChecksumIdempotent(env: Env, a: string)
    requires ChecksumLaws(env)
    ensures env.checksum(env.checksum(a)) == env.checksum(a)
  {
  }
}
