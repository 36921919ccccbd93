/**
 * The voucher record, the payment requirements a voucher is built from,
 * the errors raised along the way, and the dict form a voucher takes
 * inside a payment header (`model_dump(by_alias=True)`).
 */
module Vouchers {
  import opened Wrappers
  import opened JsonValues

  /** 30 days in seconds: how long a freshly built voucher stays valid. */
  const EXPIRY_TIME: int := 60 * 60 * 24 * 30

  /** The scheme name written into every payment header. */
  const DEFERRED_SCHEME: string := "deferred"

  /**
   * A deferred payment voucher. `valueAggregate` is the decimal string the
   * code passes around; the numeric fields are Python ints.
   */
  datatype Voucher = Voucher(
    id: string,
    buyer: string,
    seller: string,
    valueAggregate: string,
    asset: string,
    timestamp: int,
    nonce: int,
    escrow: string,
    chainId: int,
    expiry: int)

  /** The fields of `PaymentRequirements` that the voucher code reads. */
  datatype PaymentRequirements = PaymentRequirements(
    network: string,
    maxAmountRequired: string,
    payTo: string,
    asset: string,
    extra: Option<map<string, Json>>)

  /** One constructor per failure the code can end in. */
  datatype DeferredError =
    | MissingExtraType           // extra is empty or has no "type" key
    | UnknownVoucherType(t: Json) // "type" is neither "new" nor "aggregation"
    | InvalidNewVoucherExtra     // extra does not parse as a new-voucher seed
    | InvalidAggregationExtra    // extra does not parse as signature + prior voucher
    | InvalidSeller
    | InvalidAsset
    | InvalidChainId
    | VoucherExpired
    | VoucherTimestampInFuture
    | InvalidVoucherSignature
    | UnknownNetwork             // get_chain_id has no entry for the network
    | InvalidAmount              // int() of a string that is not a decimal integer
    | InvalidSignatureFormat     // recover_message rejects the signature
    | InvalidVoucherData         // a header's voucher dict does not parse
    | SigningFailed(cause: DeferredError)  // sign_payment_header's wrapper
    | DecodeFailure              // bad base64 or bad JSON

  /** The parsed `extra` of a "new" requirement: `extra["voucher"]`'s id and escrow. */
  datatype NewVoucherExtra = NewVoucherExtra(id: string, escrow: string)

  /** The parsed `extra` of an "aggregation" requirement. */
  datatype AggregationExtra = AggregationExtra(signature: string, voucher: Voucher)

  /** The voucher as a dict with the camel-case aliases as keys. */
  function VoucherToJson(v: Voucher): map<string, Json>
  {
    map[
      "id" := JStr(v.id),
      "buyer" := JStr(v.buyer),
      "seller" := JStr(v.seller),
      "valueAggregate" := JStr(v.valueAggregate),
      "asset" := JStr(v.asset),
      "timestamp" := JInt(v.timestamp),
      "nonce" := JInt(v.nonce),
      "escrow" := JStr(v.escrow),
      "chainId" := JInt(v.chainId),
      "expiry" := JInt(v.expiry)]
  }

  /** Every entry of `small` is also in `big`, with the same value. */
  predicate SubDict(small: map<string, Json>, big: map<string, Json>)
  {
    forall k :: k in small ==> k in big && big[k] == small[k]
  }

  /**
   * `DeferredEvmPayloadVoucher(**m)`: succeeds exactly when `m` holds the ten
   * aliased fields with the right JSON kinds; other keys are ignored.
   */
  function VoucherFromJson(m: map<string, Json>): (r: Option<Voucher>)
    ensures r.Some? ==> SubDict(VoucherToJson(r.value), m)
  {
    var id :- GetStr(m, "id");
    var buyer :- GetStr(m, "buyer");
    var seller :- GetStr(m, "seller");
    var valueAggregate :- GetStr(m, "valueAggregate");
    var asset :- GetStr(m, "asset");
    var timestamp :- GetInt(m, "timestamp");
    var nonce :- GetInt(m, "nonce");
    var escrow :- GetStr(m, "escrow");
    var chainId :- GetInt(m, "chainId");
    var expiry :- GetInt(m, "expiry");
    Some(Voucher(id, buyer, seller, valueAggregate, asset, timestamp, nonce, escrow, chainId, expiry))
  }

  /**
   * Conversely, any dict that holds a voucher's dump (plus perhaps other
   * keys) parses to that voucher; in particular a voucher survives being
   * dumped and parsed back.
   */
  lemma VoucherFromJsonComplete(m: map<string, Json>, v: Voucher)
    requires SubDict(VoucherToJson(v), m)
    ensures VoucherFromJson(m) == Some(v)
  {
    var d := VoucherToJson(v);
    assert d["id"] == JStr(v.id) && d["buyer"] == JStr(v.buyer) && d["seller"] == JStr(v.seller);
    assert d["valueAggregate"] == JStr(v.valueAggregate) && d["asset"] == JStr(v.asset);
    assert d["timestamp"] == JInt(v.timestamp) && d["nonce"] == JInt(v.nonce);
    assert d["escrow"] == JStr(v.escrow) && d["chainId"] == JInt(v.chainId) && d["expiry"] == JInt(v.expiry);
  }

  lemma VoucherJsonRoundTrip(v: Voucher)
    ensures VoucherFromJson(VoucherToJson(v)) == Some(v)
  {
    VoucherFromJsonComplete(VoucherToJson(v), v);
  }

  /** `DeferredPaymentRequirementsExtraNewVoucher(**extra)`. */
  function ParseNewVoucherExtra(extra: Option<map<string, Json>>): Option<NewVoucherExtra>
  {
    var m :- extra;
    var seed :- GetObj(m, "voucher");
    var id :- GetStr(seed, "id");
    var escrow :- GetStr(seed, "escrow");
    Some(NewVoucherExtra(id, escrow))
  }

  /** `DeferredPaymentRequirementsExtraAggregationVoucher(**extra)`. */
  function ParseAggregationExtra(extra: Option<map<string, Json>>): Option<AggregationExtra>
  {
    var m :- extra;
    var signature :- GetStr(m, "signature");
    var prior :- GetObj(m, "voucher");
    var voucher :- VoucherFromJson(prior);
    Some(AggregationExtra(signature, voucher))
  }
}
