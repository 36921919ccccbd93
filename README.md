# Deferred x402 vouchers, modelled in Dafny

This project models the buyer side of the x402 "deferred" payment scheme
(`python/x402/src/x402/deferred.py`). A buyer pays for API calls with a
*voucher*: a signed, off-chain promise of a running total owed to a
seller, redeemable later from an escrow contract. The first voucher of a
lineage is built from a "new" payment requirement. Each later requirement
of type "aggregation" carries the latest signed voucher. The buyer checks
that voucher against the requirement (seller, asset, chain, validity
window, signature) and builds its successor: the same id, a value raised
by the new charge, the nonce counted up by one, and a fresh 30-day expiry.
Vouchers are signed as EIP-712 typed data. They travel inside a payment
header, which is JSON encoded as base64.

Modules, in dependency order:

- `Wrappers`: Option and Result.
- `Text`: ASCII lower-casing, Python's `int()` and `str()` on decimal strings, lower-case hex.
- `JsonValues`: JSON values.
- `Eip712`: the typed data record and its struct types.
- `Foreign`: the libraries the code calls, and the laws this model assumes of them.
- `Vouchers`: the voucher, the requirements, the errors and the dict form of a voucher.
- `Signing`: typed data, signing and verifying.
- `Deferred`: creation, aggregation, header preparation and the transport encoding.
- `AggregationProperties`: properties of creation, aggregation and preparation.
- `Headers`: the header dict that `sign_payment_header` updates in place (a class).
- `Lineage`: what holds along a chain of aggregations, plus the repository's test scenarios.

The model has its own representation of the third-party libraries. It
uses checksum addresses (`eth_utils.to_checksum_address`), the network
table (`get_chain_id`), EIP-712 encoding and ECDSA signing and recovery
(`eth_account`), `HexBytes.hex()`, `json` and base64. In the model they
are the fields of a record `Foreign.Env` of functions. What the proofs
need from them is stated as ghost predicates, which a lemma requires only
when it uses that predicate:

- `ChecksumLaws`: a checksum address lower-cases to the input lower-cased, so it depends only on the input's lower-case form. `to_checksum_address` obeys this only for "0x"-prefixed addresses (one written without the prefix gains it); the model assumes it of every string.
- `SignatureLaws`: a signature is 65 bytes. Recovering from "0x" plus its hex gives the signer's address. `hex()` renders bytes with or without "0x".
- `CodecLaws`: `json.loads` undoes `json.dumps` and base64 decoding undoes encoding.
- `KnowsBaseSepolia`: "base-sepolia" is chain 84532.

The two constants are `Vouchers.EXPIRY_TIME` (30 days in seconds, `deferred.py:22`) and `Vouchers.DEFERRED_SCHEME` ("deferred", `deferred.py:23`).

Each raised exception becomes one constructor of `Vouchers.DeferredError`.

## Model

| member | source | states |
|---|---|---|
| Text.IntToStringRoundTrip | python/x402/src/x402/deferred.py:116-118 | `int(str(i)) == i` for every integer, and `str(i)` is a canonical decimal (no leading zero, no "-0") |
| Text.CanonicalRoundTrip | python/x402/src/x402/deferred.py:116-118 | a canonical decimal string is exactly `str` of the integer it parses to |
| Eip712.MessageTypes | python/x402/src/x402/deferred.py:186 | the types handed to the encoder are exactly the given types other than EIP712Domain |
| Vouchers.VoucherFromJson | python/x402/src/x402/deferred.py:225 | a voucher is parsed only from a dict that holds its whole aliased dump |
| Vouchers.VoucherFromJsonComplete | python/x402/src/x402/deferred.py:225 | every dict holding a voucher's dump, extra keys allowed, parses to that voucher |
| Vouchers.VoucherJsonRoundTrip | python/x402/src/x402/deferred.py:56 | `model_dump(by_alias=True)` followed by parsing gives the voucher back |
| Signing.TypedDataShape | python/x402/src/x402/deferred.py:134-176 | typed data exists exactly for a decimal value (otherwise InvalidAmount); the primary type is Voucher; the domain is ("DeferredPaymentEscrow", "1", chain, checksummed escrow); the encoder receives only the Voucher type; the message holds the voucher's values, with the value as a number |
| Signing.TypedDataAddressesNormalised | python/x402/src/x402/deferred.py:162-172 | every message address and the domain's verifying contract is in checksum form and names the voucher's address up to case |
| Signing.SignedContentDecidesVerification | python/x402/src/x402/deferred.py:200-216 | two vouchers that differ only in address case and value spelling have the same typed data and verify alike |
| Signing.SignatureFormat | python/x402/src/x402/deferred.py:179-197 | signing succeeds exactly when the typed data exists; the signature is "0x" plus the 65 bytes' hex, 132 characters, whichever way `hex()` renders |
| Signing.SignThenVerify | python/x402/src/x402/deferred.py:200-216 | a signed voucher verifies exactly for the signer's address up to case, and gives false, not an error, for any other address |
| Deferred.CreateNewVoucher | python/x402/src/x402/deferred.py:61-82 | succeeds exactly when the extra parses and the network is known, with those errors otherwise; the id comes from the extra, nonce 0, value = max amount, chain from the network, timestamp = first clock reading, expiry = second reading + 30 days |
| Deferred.HeaderToJsonInjective | python/x402/src/x402/deferred.py:50-58 | the header's dict form determines the header, a null signature included |
| Deferred.DecodeEncodePayment | python/x402/src/x402/deferred.py:240-260 | decoding an encoded payment gives back the same dict |
| Deferred.HeaderRoundTrip | python/x402/src/x402/deferred.py:240-260 | a header that is encoded and then decoded is the original header, including an absent signature |
| AggregationProperties.NewVoucherNormalised | python/x402/src/x402/deferred.py:71-82 | a new voucher's buyer, seller, asset and escrow are checksummed forms of the inputs; it expires after its timestamp unless the clock went back 30 days between the readings |
| AggregationProperties.FirstFailure | python/x402/src/x402/deferred.py:99-113 | none exactly when every check passes; otherwise the error of a failing check with only passing checks before it |
| AggregationProperties.AggregateFollowsChecks | python/x402/src/x402/deferred.py:85-113 | aggregation fails with InvalidAggregationExtra on a bad extra; otherwise it succeeds exactly when all checks pass, in the order seller, asset, chain, expired, future, signature, and fails with the first failing check's error; both time bounds are inclusive |
| AggregationProperties.AggregateSuccessor | python/x402/src/x402/deferred.py:115-131 | the successor keeps id, seller, asset, escrow and chain; the buyer is checksummed; nonce + 1; timestamp = now, within the prior's validity; expiry = now + 30 days; value = charge + prior value, as a canonical decimal; the value does not drop for a non-negative charge and stays the same exactly when the charge is zero |
| AggregationProperties.OnlySignerCanExtend | python/x402/src/x402/deferred.py:98-113 | for a voucher signed by an account, aggregation succeeds exactly when seller, asset, chain and time window match, the claimed buyer is that account's address up to case, and the charge is decimal |
| AggregationProperties.PrepareDispatch | python/x402/src/x402/deferred.py:33-49 | a missing or empty extra, or one without "type", gives MissingExtraType; "new" goes to creation and "aggregation" to aggregation, with their errors passed through; any other type gives UnknownVoucherType |
| AggregationProperties.PreparedHeaderShape | python/x402/src/x402/deferred.py:50-58 | a prepared header has the given version and network, the "deferred" scheme, no signature, and a voucher dict that parses back to the built voucher |
| Headers.SignPaymentHeader | python/x402/src/x402/deferred.py:219-237 | on success the header dict takes the signed value and the result is its encoding; on failure the header is left unchanged and the error is wrapped |
| Headers.SignHeaderChangesOnlySignature | python/x402/src/x402/deferred.py:219-237 | signing succeeds exactly when the voucher dict parses and its typed data exists; only the signature changes, to a 132-character "0x" string that verifies for the account |
| Headers.SignedHeaderDecodes | python/x402/tests/test_deferred.py:191-206 | the returned string decodes to the signed header's dict, with its version, its scheme and a 132-character "0x" signature |
| Lineage.AggregateExtends | python/x402/src/x402/deferred.py:116-131 | each successful aggregation extends the prior voucher by the requirement's charge |
| Lineage.LineageInvariants | python/x402/src/x402/deferred.py:120-131 | along any chain of aggregations, id, seller, asset, escrow and chain never change; the nonce counts the steps; timestamps do not decrease; every successor expires after its timestamp; last value = first value + sum of the charges, never below the first if no charge is negative |
| Lineage.CreateAndSign | python/x402/tests/test_deferred.py:69-82 | on base-sepolia a one-token "new" requirement gives a voucher with nonce 0, value "1000000000000000000" and chain 84532, and that voucher can be signed |
| Lineage.AggregateHalfToken | python/x402/tests/test_deferred.py:98-130 | aggregating half a token into the signed one-token voucher succeeds with value "1500000000000000000", nonce + 1, the same id and a fresh expiry |
| Lineage.CreateSignAggregate | python/x402/tests/test_deferred.py:69-130 | composes the creation test (69-82) with the aggregation test (98-130), which itself aggregates a prepared nonce-1 voucher: creating, signing and then aggregating within 30 days gives the 1.5-token voucher with nonce 1 |
| Lineage.ExpiredVoucherRejected | python/x402/tests/test_deferred.py:208-244 | a voucher past its expiry is refused with VoucherExpired, whatever signature it carries |

| Lineage.PriorBuyerNotChecked | python/x402/src/x402/deferred.py:110-113 | the prior voucher's `buyer` field is not compared with the client: a voucher naming another buyer, signed by the client, still aggregates, and its successor names the client |
| Text.Lower | python/x402/src/x402/deferred.py:99-101 | no ensures of its own: ASCII `str.lower()`; see AggregateFollowsChecks, OnlySignerCanExtend, SignThenVerify |
| Text.ParseInt | python/x402/src/x402/deferred.py:117 | no ensures of its own: `int()` on a string; see IntToStringRoundTrip, CanonicalRoundTrip, TypedDataShape |
| Text.IntToString | python/x402/src/x402/deferred.py:116-118 | no ensures of its own: `str()` of an int; see IntToStringRoundTrip, CanonicalRoundTrip |
| Vouchers.VoucherToJson | python/x402/src/x402/deferred.py:56 | no ensures of its own: `model_dump(by_alias=True)`; see VoucherJsonRoundTrip, VoucherFromJsonComplete |
| Vouchers.ParseNewVoucherExtra | python/x402/src/x402/deferred.py:66-69 | no ensures of its own: the "new" extra; see CreateNewVoucher |
| Vouchers.ParseAggregationExtra | python/x402/src/x402/deferred.py:90-95 | no ensures of its own: the "aggregation" extra; see AggregateFollowsChecks, AggregateSuccessor |
| Signing.GetVoucherTypedData | python/x402/src/x402/deferred.py:134-176 | no ensures of its own; see TypedDataShape, TypedDataAddressesNormalised, SignedContentDecidesVerification |
| Signing.SignVoucher | python/x402/src/x402/deferred.py:179-197 | no ensures of its own; see SignatureFormat, SignThenVerify |
| Signing.VerifyVoucher | python/x402/src/x402/deferred.py:200-216 | no ensures of its own; see SignThenVerify, SignedContentDecidesVerification |
| Deferred.AggregateVoucher | python/x402/src/x402/deferred.py:85-131 | no ensures of its own; see AggregateFollowsChecks, AggregateSuccessor, OnlySignerCanExtend, AggregateExtends |
| Deferred.PreparePaymentHeader | python/x402/src/x402/deferred.py:33-58 | no ensures of its own; see PrepareDispatch, PreparedHeaderShape |
| Deferred.HeaderToJson | python/x402/src/x402/deferred.py:50-58 | no ensures of its own: the header dict, null for no signature; see HeaderToJsonInjective, HeaderRoundTrip |
| Deferred.EncodePayment | python/x402/src/x402/deferred.py:240-255 | no ensures of its own; see DecodeEncodePayment, HeaderRoundTrip |
| Deferred.DecodePayment | python/x402/src/x402/deferred.py:258-260 | no ensures of its own: DecodeFailure when base64 or JSON fails; see DecodeEncodePayment, HeaderRoundTrip |
| Headers.SignHeaderValue | python/x402/src/x402/deferred.py:219-237 | no ensures of its own: the header sign_payment_header leaves behind; see SignPaymentHeader, SignHeaderChangesOnlySignature, SignedHeaderDecodes |

## Left out

- Not modelled: EIP-712 hashing, `encode_typed_data`, ECDSA signing and recovery, and EIP-55 checksumming. They are abstract functions in `Foreign.Env`, constrained only by the laws above.
- The exact encodeType string that EIP-712 derives from the Voucher struct is not proved; the model fixes its name, its members in order, and their types.
- `to_checksum_address` raising on an invalid address is not modelled; the checksum function is total.
- Signing with an invalid key is not modelled; the sign function is total.
- The `get_chain_id` table is a parameter. Only base-sepolia = 84532 is assumed, and only by the scenario lemmas. An unknown network is the error UnknownNetwork.
- `time.time()` is a parameter: `now`, plus `later` where the code reads the clock twice.
- The exact `json` and base64 algorithms are left out. They are abstract, with the round-trip laws assumed.
- The `default` hook of `encode_payment` is not modelled. A header built by this code holds no HexBytes or other non-JSON objects, so the hook is never reached.
- JSON floats are not modelled.
- The pydantic models in `x402.types` are not part of this model. Parsing a dict requires the aliased keys with the right JSON kinds; coercion, field validators and extra-key rules are not modelled.
- The parsed `extra` of a requirement is not checked against its `type` field.
- Python's `int()` accepts surrounding whitespace, underscores and non-ASCII digits. The model accepts only an optional sign and ASCII digits; other strings are InvalidAmount.
- `str.lower()` on non-ASCII letters is not modelled; the model lower-cases ASCII only.
- `sign_payment_header` re-raises every exception as a generic `Exception` with a message; here it is `SigningFailed` wrapping the original error. Message texts are not modelled.
- The `PaymentRequirements` fields that the code never reads (scheme, resource, description, mime type, timeout, output schema) are left out.
- A negative `max_amount_required` is not rejected by the code, and the model likewise accepts it. `AggregationProperties.AggregateSuccessor` states the value's monotonicity only for a non-negative charge.
- The 256-bit and 64-bit ranges of the EIP-712 fields are not checked. The code does not check them either; that is left to the encoder.
- The comment at `deferred.py:110` says the check also makes sure the voucher's buyer is the client. The code checks only that the client signed the voucher and never reads the prior voucher's `buyer` field; the model follows the code (see `Lineage.PriorBuyerNotChecked`).
- Concurrency, persistence of vouchers, and the seller's and facilitator's sides of the scheme are outside this core.
