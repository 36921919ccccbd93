/**
 * Signing a payment header in place. The header is a dict whose "payload"
 * entry is itself a dict; `sign_payment_header` writes the signature into
 * that inner dict, so the caller sees it change.
 */
module Headers {
  import opened Wrappers
  import opened Text
  import opened JsonValues
  import opened Foreign
  import opened Vouchers
  import opened Signing
  import opened Deferred

  /** The mutable `header["payload"]` dict. */
  class PayloadDict {
    var signature: Option<string>
    var voucher: map<string, Json>

    constructor (p: Payload)
      ensures signature == p.signature && voucher == p.voucher
    {
      signature := p.signature;
      voucher := p.voucher;
    }
  }

  /** The mutable header dict. */
  class HeaderDict {
    var x402Version: int
    var scheme: string
    var network: string
    var payload: PayloadDict

    constructor (h: PaymentHeader)
      ensures Value() == h && fresh(payload)
    {
      x402Version := h.x402Version;
      scheme := h.scheme;
      network := h.network;
      payload := new PayloadDict(h.payload);
    }

    /** The header's current contents. */
    function Value(): PaymentHeader
      reads this, payload
    {
      PaymentHeader(x402Version, scheme, network, Payload(payload.signature, payload.voucher))
    }
  }

  /**
   * The header `sign_payment_header` leaves behind: the voucher dict is
   * parsed, signed, and the signature stored. Any failure is reported
   * wrapped in SigningFailed.
   */
  function SignHeaderValue(env: Env, account: Account, h: PaymentHeader): Result<PaymentHeader, DeferredError>
  {
    var v :- OrFail(VoucherFromJson(h.payload.voucher), SigningFailed(InvalidVoucherData));
    var signature := SignVoucher(env, account, v);
    if signature.Err? then Err(SigningFailed(signature.error))
    else Ok(h.(payload := h.payload.(signature := Some(signature.value))))
  }

  /**
   * `sign_payment_header`: sign the header's voucher, store the signature in
   * the payload dict and return the encoded header. Only the signature
   * changes, and nothing changes when signing fails. The payment
   * requirements are not read.
   */
  method SignPaymentHeader(env: Env, account: Account, requirements: PaymentRequirements, header: HeaderDict)
    returns (r: Result<string, DeferredError>)
    modifies header.payload
    ensures var signed := SignHeaderValue(env, account, old(header.Value()));
      && (signed.Ok? ==> header.Value() == signed.value && r == Ok(EncodePayment(env, HeaderToJson(signed.value))))
      && (signed.Err? ==> header.Value() == old(header.Value()) && r == Err(signed.error))
  {
    var parsed := VoucherFromJson(header.payload.voucher);
    if parsed.None? {
      return Err(SigningFailed(InvalidVoucherData));
    }
    var signature := SignVoucher(env, account, parsed.value);
    if signature.Err? {
      return Err(SigningFailed(signature.error));
    }
    header.payload.signature := Some(signature.value);
    r := Ok(EncodePayment(env, HeaderToJson(header.Value())));
  }

  // ---------------------------------------------------------------------
  // Properties

  /**
   * Signing a header fails exactly when its voucher dict does not parse or
   * the voucher's typed data cannot be built; otherwise it changes only
   * the signature, to a "0x"-prefixed 132-character signature that
   * verifies for the signing account's address.
   */
  lemma SignHeaderChangesOnlySignature(env: Env, account: Account, h: PaymentHeader)
    requires SignatureLaws(env)
    ensures SignHeaderValue(env, account, h).Ok? <==>
      VoucherFromJson(h.payload.voucher).Some? && GetVoucherTypedData(env, VoucherFromJson(h.payload.voucher).value).Ok?
    ensures SignHeaderValue(env, account, h).Ok? ==>
      var g := SignHeaderValue(env, account, h).value;
      var v := VoucherFromJson(h.payload.voucher).value;
      && g.x402Version == h.x402Version
      && g.scheme == h.scheme
      && g.network == h.network
      && g.payload.voucher == h.payload.voucher
      && g.payload.signature.Some?
      && StartsWith(g.payload.signature.value, "0x")
      && |g.payload.signature.value| == 132
      && VerifyVoucher(env, v, g.payload.signature.value, env.addressOf(account)) == Ok(true)
  {
    if VoucherFromJson(h.payload.voucher).Some? {
      var v := VoucherFromJson(h.payload.voucher).value;
      SignatureFormat(env, account, v);
      if SignVoucher(env, account, v).Ok? {
        SignThenVerify(env, account, v, env.addressOf(account));
      }
    }
  }

  /**
   * The string `sign_payment_header` returns decodes to the signed
   * header's dict, whose payload signature is a "0x"-prefixed
   * 132-character string and whose version and scheme are the header's.
   */
  lemma SignedHeaderDecodes(env: Env, account: Account, h: PaymentHeader)
    requires SignatureLaws(env) && CodecLaws(env)
    requires SignHeaderValue(env, account, h).Ok?
    ensures var g := SignHeaderValue(env, account, h).value;
      var decoded := DecodePayment(env, EncodePayment(env, HeaderToJson(g)));
      && decoded == Ok(HeaderToJson(g))
      && decoded.value.fields["x402Version"] == JInt(h.x402Version)
      && decoded.value.fields["scheme"] == JStr(h.scheme)
      && decoded.value.fields["payload"].fields["signature"].JStr?
      && StartsWith(decoded.value.fields["payload"].fields["signature"].s, "0x")
      && |decoded.value.fields["payload"].fields["signature"].s| == 132
  {
    SignHeaderChangesOnlySignature(env, account, h);
    DecodeEncodePayment(env, HeaderToJson(SignHeaderValue(env, account, h).value));
  }
}
