/**
 * The deferred scheme's voucher lifecycle: building the first voucher of a
 * lineage, aggregating a new charge into a prior signed voucher, wrapping
 * a voucher into an unsigned payment header, and the transport encoding.
 * Clock readings are parameters: `now` (and, where the code reads the
 * clock a second time, `later`) are the values `int(time.time())` gave.
 */
module Deferred {
  import opened Wrappers
  import opened Text
  import opened JsonValues
  import opened Foreign
  import opened Vouchers
  import opened Signing

  // ---------------------------------------------------------------------
  // Payment header

  datatype Payload = Payload(signature: Option<string>, voucher: map<string, Json>)

  datatype PaymentHeader = PaymentHeader(x402Version: int, scheme: string, network: string, payload: Payload)

  /** The header as the dict that is handed to `json.dumps`; a missing signature is null. */
  function HeaderToJson(h: PaymentHeader): Json
  {
    JObj(map[
      "x402Version" := JInt(h.x402Version),
      "scheme" := JStr(h.scheme),
      "network" := JStr(h.network),
      "payload" := JObj(map[
        "signature" := (if h.payload.signature.Some? then JStr(h.payload.signature.value) else JNull),
        "voucher" := JObj(h.payload.voucher)])])
  }

  /** The dict form loses nothing: distinct headers give distinct dicts, null included. */
  lemma HeaderToJsonInjective(h: PaymentHeader, g: PaymentHeader)
    requires HeaderToJson(h) == HeaderToJson(g)
    ensures h == g
  {
    var hm, gm := HeaderToJson(h).fields, HeaderToJson(g).fields;
    assert hm["x402Version"] == gm["x402Version"] && hm["scheme"] == gm["scheme"] && hm["network"] == gm["network"];
    var hp, gp := hm["payload"].fields, gm["payload"].fields;
    assert hp == gp;
    assert hp["signature"] == gp["signature"] && hp["voucher"] == gp["voucher"];
  }

  /** `encode_payment`: base64 of the JSON text. */
  function EncodePayment(env: Env, payment: Json): string
  {
    env.base64Encode(env.jsonDumps(payment))
  }

  /** `decode_payment`: undo the base64, then parse the JSON. */
  function DecodePayment(env: Env, encoded: string): Result<Json, DeferredError>
  {
    var text :- OrFail(env.base64Decode(encoded), DecodeFailure);
    OrFail(env.jsonLoads(text), DecodeFailure)
  }

  /** Decoding an encoded payment gives back the same dict. */
  lemma DecodeEncodePayment(env: Env, payment: Json)
    requires CodecLaws(env)
    ensures DecodePayment(env, EncodePayment(env, payment)) == Ok(payment)
  {
  }

  /**
   * Decoding an encoded header gives back its dict, and that dict
   * determines the header, an absent signature (null) included.
   */
  lemma HeaderRoundTrip(env: Env, h: PaymentHeader, g: PaymentHeader)
    requires CodecLaws(env)
    requires DecodePayment(env, EncodePayment(env, HeaderToJson(h))) == Ok(HeaderToJson(g))
    ensures g == h
  {
    DecodeEncodePayment(env, HeaderToJson(h));
    HeaderToJsonInjective(h, g);
  }

  // ---------------------------------------------------------------------
  // Building vouchers

  /**
   * `create_new_voucher`: the first voucher of a lineage. The timestamp is
   * the first clock reading and the expiry 30 days after the second.
   */
  function CreateNewVoucher(env: Env, buyer: string, req: PaymentRequirements, now: int, later: int)
    : (r: Result<Voucher, DeferredError>)
    ensures r.Ok? <==> ParseNewVoucherExtra(req.extra).Some? && env.chainIdOf(req.network).Some?
    ensures r.Err? ==> r.error == if ParseNewVoucherExtra(req.extra).None? then InvalidNewVoucherExtra else UnknownNetwork
    ensures r.Ok? ==>
      && r.value.id == ParseNewVoucherExtra(req.extra).value.id
      && r.value.nonce == 0
      && r.value.valueAggregate == req.maxAmountRequired
      && Some(r.value.chainId) == env.chainIdOf(req.network)
      && r.value.timestamp == now
      && r.value.expiry == later + EXPIRY_TIME
  {
    var extra :- OrFail(ParseNewVoucherExtra(req.extra), InvalidNewVoucherExtra);
    var chainId :- OrFail(env.chainIdOf(req.network), UnknownNetwork);
    Ok(Voucher(
      extra.id,
      env.checksum(buyer),
      env.checksum(req.payTo),
      req.maxAmountRequired,
      env.checksum(req.asset),
      now,
      0,
      env.checksum(extra.escrow),
      chainId,
      later + EXPIRY_TIME))
  }

  /**
   * `aggregate_voucher`: check the prior signed voucher against the new
   * requirements (seller, asset, chain, expiry, timestamp, signature, in
   * that order) and, if every check passes, build its successor.
   */
  function AggregateVoucher(env: Env, buyer: string, req: PaymentRequirements, now: int)
    : Result<Voucher, DeferredError>
  {
    var extra :- OrFail(ParseAggregationExtra(req.extra), InvalidAggregationExtra);
    var v := extra.voucher;
    if !SameIgnoringCase(req.payTo, v.seller) then Err(InvalidSeller)
    else if !SameIgnoringCase(req.asset, v.asset) then Err(InvalidAsset)
    else
      var chainId :- OrFail(env.chainIdOf(req.network), UnknownNetwork);
      if chainId != v.chainId then Err(InvalidChainId)
      else if now > v.expiry then Err(VoucherExpired)
      else if now < v.timestamp then Err(VoucherTimestampInFuture)
      else
        var valid :- VerifyVoucher(env, v, extra.signature, buyer);
        if !valid then Err(InvalidVoucherSignature)
        else
          var charge :- OrFail(ParseInt(req.maxAmountRequired), InvalidAmount);
          var prior :- OrFail(ParseInt(v.valueAggregate), InvalidAmount);
          Ok(Voucher(
            v.id,
            env.checksum(buyer),
            v.seller,
            IntToString(charge + prior),
            v.asset,
            now,
            v.nonce + 1,
            v.escrow,
            v.chainId,
            now + EXPIRY_TIME))
  }

  /** The header of a freshly built voucher: scheme "deferred" and no signature yet. */
  function UnsignedHeader(x402Version: int, network: string, v: Voucher): PaymentHeader
  {
    PaymentHeader(x402Version, DEFERRED_SCHEME, network, Payload(None, VoucherToJson(v)))
  }

  /**
   * `prepare_payment_header`: dispatch on `extra["type"]` to creation or
   * aggregation and wrap the voucher into an unsigned header.
   */
  function PreparePaymentHeader(
    env: Env, sender: string, x402Version: int, req: PaymentRequirements, now: int, later: int)
    : Result<PaymentHeader, DeferredError>
  {
    if req.extra.None? || |req.extra.value| == 0 || "type" !in req.extra.value then Err(MissingExtraType)
    else
      var extraType := req.extra.value["type"];
      if extraType == JStr("new") then
        var v :- CreateNewVoucher(env, sender, req, now, later);
        Ok(UnsignedHeader(x402Version, req.network, v))
      else if extraType == JStr("aggregation") then
        var v :- AggregateVoucher(env, sender, req, now);
        Ok(UnsignedHeader(x402Version, req.network, v))
      else Err(UnknownVoucherType(extraType))
  }
}
