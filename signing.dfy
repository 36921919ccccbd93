/**
 * The typed data a voucher signature covers, and signing and verifying a
 * voucher against it.
 */
module Signing {
  import opened Wrappers
  import opened Text
  import opened Eip712
  import opened Foreign
  import opened Vouchers

  /**
   * `get_voucher_typed_data`: the EIP712Domain and Voucher struct types,
   * the domain of the escrow contract, and the voucher's fields with every
   * address checksummed again. `int(voucher.value_aggregate)` raises on a
   * value that is not a decimal integer, which is InvalidAmount here.
   */
  function GetVoucherTypedData(env: Env, v: Voucher): Result<TypedData, DeferredError>
  {
    var value :- OrFail(ParseInt(v.valueAggregate), InvalidAmount);
    Ok(TypedData(
      [DomainType, VoucherType],
      PRIMARY_TYPE,
      Domain(DOMAIN_NAME, DOMAIN_VERSION, v.chainId, env.checksum(v.escrow)),
      VoucherMessage(
        v.id,
        env.checksum(v.buyer),
        env.checksum(v.seller),
        value,
        env.checksum(v.asset),
        v.timestamp,
        v.nonce,
        env.checksum(v.escrow),
        v.chainId,
        v.expiry)))
  }

  /** `encode_typed_data` applied to the domain, the non-domain types and the message. */
  function Signable(env: Env, td: TypedData): SignableMessage
  {
    env.encodeTypedData(td.domain, MessageTypes(td.types), td.message)
  }

  /** `sign_voucher`: the hex signature, with "0x" put in front when `hex()` left it out. */
  function SignVoucher(env: Env, account: Account, v: Voucher): Result<string, DeferredError>
  {
    var td :- GetVoucherTypedData(env, v);
    var rendered := env.hexOf(env.signMessage(account, Signable(env, td)));
    Ok(if StartsWith(rendered, "0x") then rendered else "0x" + rendered)
  }

  /**
   * `verify_voucher`: recover the signer of the voucher's typed data and
   * compare it with the claimed signer, ignoring case. A malformed
   * signature makes `recover_message` raise: InvalidSignatureFormat.
   */
  function VerifyVoucher(env: Env, v: Voucher, signature: string, signer: string): Result<bool, DeferredError>
  {
    var td :- GetVoucherTypedData(env, v);
    var recovered :- OrFail(env.recoverMessage(Signable(env, td), signature), InvalidSignatureFormat);
    Ok(SameIgnoringCase(recovered, signer))
  }

  // ---------------------------------------------------------------------
  // Properties

  /**
   * The typed data is built for every voucher whose value is a decimal
   * integer, and for no other; the domain is that of the escrow contract,
   * the message carries the voucher's values with the value as a number,
   * and the encoder is handed the Voucher struct type alone.
   */
  lemma TypedDataShape(env: Env, v: Voucher)
    ensures GetVoucherTypedData(env, v).Ok? <==> ParseInt(v.valueAggregate).Some?
    ensures GetVoucherTypedData(env, v).Err? ==> GetVoucherTypedData(env, v).error == InvalidAmount
    ensures GetVoucherTypedData(env, v).Ok? ==>
      var td := GetVoucherTypedData(env, v).value;
      && td.primaryType == "Voucher"
      && td.domain == Domain("DeferredPaymentEscrow", "1", v.chainId, env.checksum(v.escrow))
      && MessageTypes(td.types) == [VoucherType]
      && td.message.id == v.id
      && Some(td.message.valueAggregate) == ParseInt(v.valueAggregate)
      && td.message.timestamp == v.timestamp && td.message.nonce == v.nonce
      && td.message.chainId == v.chainId && td.message.expiry == v.expiry
  {
    if ParseInt(v.valueAggregate).Some? {
      var td := GetVoucherTypedData(env, v).value;
      assert td.types == [DomainType, VoucherType];
      assert VoucherType in MessageTypes(td.types);
      assert forall t :: t in MessageTypes(td.types) ==> t == VoucherType;
    }
  }

  /**
   * Every address in the message is in checksum form and names the same
   * address as the voucher's field, whatever case that field was in.
   */
  lemma TypedDataAddressesNormalised(env: Env, v: Voucher)
    requires ChecksumLaws(env)
    requires GetVoucherTypedData(env, v).Ok?
    ensures var m := GetVoucherTypedData(env, v).value.message;
      && SameIgnoringCase(m.buyer, v.buyer) && env.checksum(m.buyer) == m.buyer
      && SameIgnoringCase(m.seller, v.seller) && env.checksum(m.seller) == m.seller
      && SameIgnoringCase(m.asset, v.asset) && env.checksum(m.asset) == m.asset
      && SameIgnoringCase(m.escrow, v.escrow) && env.checksum(m.escrow) == m.escrow
    ensures var d := GetVoucherTypedData(env, v).value.domain;
      SameIgnoringCase(d.verifyingContract, v.escrow) && env.checksum(d.verifyingContract) == d.verifyingContract
  {
    ChecksumIdempotent(env, v.buyer);
    ChecksumIdempotent(env, v.seller);
    ChecksumIdempotent(env, v.asset);
    ChecksumIdempotent(env, v.escrow);
  }

  /** Two vouchers that differ only in the case of their addresses and the spelling of their value. */
  predicate SameSignedContent(v: Voucher, w: Voucher)
  {
    && v.id == w.id
    && SameIgnoringCase(v.buyer, w.buyer)
    && SameIgnoringCase(v.seller, w.seller)
    && ParseInt(v.valueAggregate) == ParseInt(w.valueAggregate)
    && SameIgnoringCase(v.asset, w.asset)
    && v.timestamp == w.timestamp
    && v.nonce == w.nonce
    && SameIgnoringCase(v.escrow, w.escrow)
    && v.chainId == w.chainId
    && v.expiry == w.expiry
  }

  /**
   * Re-normalising at encode time makes the signed message blind to address
   * case: such vouchers have the same typed data, so a signature made for
   * one verifies, or fails, for the other exactly alike.
   */
  lemma SignedContentDecidesVerification(env: Env, v: Voucher, w: Voucher, signature: string, signer: string)
    requires ChecksumLaws(env)
    requires SameSignedContent(v, w)
    ensures GetVoucherTypedData(env, v) == GetVoucherTypedData(env, w)
    ensures VerifyVoucher(env, v, signature, signer) == VerifyVoucher(env, w, signature, signer)
  {
    assert env.checksum(v.buyer) == env.checksum(w.buyer);
    assert env.checksum(v.seller) == env.checksum(w.seller);
    assert env.checksum(v.asset) == env.checksum(w.asset);
    assert env.checksum(v.escrow) == env.checksum(w.escrow);
  }

  /**
   * A signature is "0x" followed by the 65 signature bytes in lower-case
   * hex, 132 characters in all, whichever way `hex()` renders bytes; it is
   * produced for exactly the vouchers whose typed data can be built.
   */
  lemma SignatureFormat(env: Env, account: Account, v: Voucher)
    requires SignatureLaws(env)
    ensures SignVoucher(env, account, v).Ok? <==> GetVoucherTypedData(env, v).Ok?
    ensures SignVoucher(env, account, v).Ok? ==>
      var s := SignVoucher(env, account, v).value;
      var td := GetVoucherTypedData(env, v).value;
      && s == "0x" + Hex(env.signMessage(account, Signable(env, td)))
      && StartsWith(s, "0x")
      && |s| == 132
  {
    if GetVoucherTypedData(env, v).Ok? {
      var td := GetVoucherTypedData(env, v).value;
      var bytes := env.signMessage(account, Signable(env, td));
      HexHasNoPrefix(bytes);
      var s := "0x" + Hex(bytes);
      assert s[..2] == "0x";
      assert |bytes| == 65;
    }
  }

  /**
   * Sign then verify: a voucher signed by an account verifies against a
   * claimed signer exactly when that signer is the account's address up to
   * case, and returns false (never an error) for any other address.
   */
  lemma SignThenVerify(env: Env, account: Account, v: Voucher, signer: string)
    requires SignatureLaws(env)
    requires SignVoucher(env, account, v).Ok?
    ensures VerifyVoucher(env, v, SignVoucher(env, account, v).value, signer)
            == Ok(SameIgnoringCase(env.addressOf(account), signer))
  {
    SignatureFormat(env, account, v);
  }
}
