/**
 * A voucher lineage: the vouchers that successive aggregations build from
 * one original voucher. Only the latest voucher travels; these lemmas say
 * what holds along the whole history, and restate the repository's
 * creation, aggregation and expiry tests, plus their composition.
 */
module Lineage {
  import opened Wrappers
  import opened Text
  import opened JsonValues
  import opened Foreign
  import opened Vouchers
  import opened Signing
  import opened Deferred
  import opened AggregationProperties

  /** `next` is a successor of `prior` that added `charge` to its value. */
  predicate Extends(prior: Voucher, next: Voucher, charge: int)
  {
    && next.id == prior.id
    && next.seller == prior.seller
    && next.asset == prior.asset
    && next.escrow == prior.escrow
    && next.chainId == prior.chainId
    && next.nonce == prior.nonce + 1
    && prior.timestamp <= next.timestamp
    && next.expiry == next.timestamp + EXPIRY_TIME
    && ParseInt(prior.valueAggregate).Some?
    && ParseInt(next.valueAggregate) == Some(ParseInt(prior.valueAggregate).value + charge)
  }

  /** Every successful aggregation extends the prior voucher by the requirement's charge. */
  lemma AggregateExtends(env: Env, buyer: string, req: PaymentRequirements, now: int)
    requires AggregateVoucher(env, buyer, req, now).Ok?
    ensures ParseInt(req.maxAmountRequired).Some?
    ensures Extends(ParseAggregationExtra(req.extra).value.voucher, AggregateVoucher(env, buyer, req, now).value,
                    ParseInt(req.maxAmountRequired).value)
  {
    AggregateSuccessor(env, buyer, req, now);
  }

  /** `vs[i + 1]` extends `vs[i]` by `charges[i]`, all along. */
  ghost predicate IsLineage(vs: seq<Voucher>, charges: seq<int>)
  {
    && |vs| == |charges| + 1
    && forall i :: 0 <= i < |charges| ==> Extends(vs[i], vs[i + 1], charges[i])
  }

  function Sum(xs: seq<int>): int
  {
    if xs == [] then 0 else Sum(xs[..|xs| - 1]) + xs[|xs| - 1]
  }

  /**
   * Along a lineage the id, seller, asset, escrow and chain id never
   * change, the nonce counts the aggregations, timestamps never go back,
   * each successor expires 30 days after its timestamp, and the last
   * value is the first plus the sum of the charges, so it never drops
   * below the first when no charge is negative.
   */
  lemma {:induction false} LineageInvariants(vs: seq<Voucher>, charges: seq<int>)
    requires IsLineage(vs, charges)
    ensures forall i :: 0 <= i < |vs| ==>
      && vs[i].id == vs[0].id
      && vs[i].seller == vs[0].seller
      && vs[i].asset == vs[0].asset
      && vs[i].escrow == vs[0].escrow
      && vs[i].chainId == vs[0].chainId
      && vs[i].nonce == vs[0].nonce + i
    ensures forall i, j :: 0 <= i <= j < |vs| ==> vs[i].timestamp <= vs[j].timestamp
    ensures forall i :: 1 <= i < |vs| ==> vs[i].expiry > vs[i].timestamp
    ensures |charges| > 0 ==>
      && ParseInt(vs[0].valueAggregate).Some?
      && ParseInt(vs[|vs| - 1].valueAggregate) == Some(ParseInt(vs[0].valueAggregate).value + Sum(charges))
    ensures |charges| > 0 && (forall i :: 0 <= i < |charges| ==> charges[i] >= 0) ==>
      && ParseInt(vs[0].valueAggregate).Some?
      && ParseInt(vs[|vs| - 1].valueAggregate).Some?
      && ParseInt(vs[|vs| - 1].valueAggregate).value >= ParseInt(vs[0].valueAggregate).value
    decreases |charges|
  {
    if |charges| > 0 {
      var n := |charges|;
      var ws, cs := vs[..n], charges[..n - 1];
      assert IsLineage(ws, cs) by {
        forall i | 0 <= i < |cs| ensures Extends(ws[i], ws[i + 1], cs[i]) {
          assert Extends(vs[i], vs[i + 1], charges[i]);
        }
      }
      LineageInvariants(ws, cs);
      assert Extends(vs[n - 1], vs[n], charges[n - 1]);
      assert forall i :: 0 <= i < n ==> vs[i] == ws[i];
      assert Sum(charges) == Sum(cs) + charges[n - 1];
      if n > 1 {
        assert Extends(vs[0], vs[1], charges[0]);
        assert ParseInt(vs[n - 1].valueAggregate) == Some(ParseInt(vs[0].valueAggregate).value + Sum(cs));
        if forall i :: 0 <= i < n ==> charges[i] >= 0 {
          assert forall i :: 0 <= i < |cs| ==> cs[i] >= 0;
        }
      }
    }
  }

  // ---------------------------------------------------------------------
  // The create-sign-aggregate scenario

  lemma ShiftDecimal(n: nat)
    requires n > 0
    ensures NatToString(10 * n) == NatToString(n) + "0"
  {
  }

  lemma OneTokenDecimal()
    ensures NatToString(1000000000000000000) == "1000000000000000000"
  {
    ShiftDecimal(1); ShiftDecimal(10); ShiftDecimal(100); ShiftDecimal(1000); ShiftDecimal(10000);
    ShiftDecimal(100000); ShiftDecimal(1000000); ShiftDecimal(10000000); ShiftDecimal(100000000);
    ShiftDecimal(1000000000); ShiftDecimal(10000000000); ShiftDecimal(100000000000);
    ShiftDecimal(1000000000000); ShiftDecimal(10000000000000); ShiftDecimal(100000000000000);
    ShiftDecimal(1000000000000000); ShiftDecimal(10000000000000000); ShiftDecimal(100000000000000000);
  }

  lemma HalfTokenDecimal()
    ensures NatToString(500000000000000000) == "500000000000000000"
  {
    ShiftDecimal(5); ShiftDecimal(50); ShiftDecimal(500); ShiftDecimal(5000); ShiftDecimal(50000);
    ShiftDecimal(500000); ShiftDecimal(5000000); ShiftDecimal(50000000); ShiftDecimal(500000000);
    ShiftDecimal(5000000000); ShiftDecimal(50000000000); ShiftDecimal(500000000000);
    ShiftDecimal(5000000000000); ShiftDecimal(50000000000000); ShiftDecimal(500000000000000);
    ShiftDecimal(5000000000000000); ShiftDecimal(50000000000000000);
  }

  lemma OneAndAHalfTokenDecimal()
    ensures NatToString(1500000000000000000) == "1500000000000000000"
  {
    assert NatToString(15) == "15";
    ShiftDecimal(15); ShiftDecimal(150); ShiftDecimal(1500); ShiftDecimal(15000); ShiftDecimal(150000);
    ShiftDecimal(1500000); ShiftDecimal(15000000); ShiftDecimal(150000000); ShiftDecimal(1500000000);
    ShiftDecimal(15000000000); ShiftDecimal(150000000000); ShiftDecimal(1500000000000);
    ShiftDecimal(15000000000000); ShiftDecimal(150000000000000); ShiftDecimal(1500000000000000);
    ShiftDecimal(15000000000000000); ShiftDecimal(150000000000000000);
  }

  /** The requirements for a first payment of one token (10^18 base units) on base-sepolia. */
  function NewRequirements(payTo: string, asset: string, id: string, escrow: string): PaymentRequirements
  {
    PaymentRequirements("base-sepolia", "1000000000000000000", payTo, asset,
      Some(map["type" := JStr("new"), "voucher" := JObj(map["id" := JStr(id), "escrow" := JStr(escrow)])]))
  }

  /** The requirements for a further half token, carrying the prior voucher and its signature. */
  function AggregationRequirements(prior: Voucher, signature: string): PaymentRequirements
  {
    PaymentRequirements("base-sepolia", "500000000000000000", prior.seller, prior.asset,
      Some(map["type" := JStr("aggregation"), "signature" := JStr(signature), "voucher" := JObj(VoucherToJson(prior))]))
  }

  /** The first half of the scenario: the one-token voucher and its signature. */
  lemma CreateAndSign(env: Env, account: Account, payTo: string, asset: string, id: string, escrow: string, created: int)
    requires SignatureLaws(env) && KnowsBaseSepolia(env)
    ensures var first := CreateNewVoucher(env, env.addressOf(account), NewRequirements(payTo, asset, id, escrow), created, created);
      && first.Ok?
      && first.value.id == id
      && first.value.nonce == 0
      && first.value.valueAggregate == "1000000000000000000"
      && ParseInt(first.value.valueAggregate) == Some(1000000000000000000)
      && first.value.chainId == 84532
      && first.value.timestamp == created
      && first.value.expiry == created + EXPIRY_TIME
      && SignVoucher(env, account, first.value).Ok?
  {
    var first := CreateNewVoucher(env, env.addressOf(account), NewRequirements(payTo, asset, id, escrow), created, created);
    OneTokenDecimal();
    NatToStringDigits(1000000000000000000);
    SignatureFormat(env, account, first.value);
  }

  /** The second half: aggregating half a token into a signed one-token voucher that is still valid. */
  lemma AggregateHalfToken(env: Env, account: Account, prior: Voucher, now: int)
    requires SignatureLaws(env) && KnowsBaseSepolia(env)
    requires ParseInt(prior.valueAggregate) == Some(1000000000000000000)
    requires prior.chainId == 84532 && prior.timestamp <= now <= prior.expiry
    requires SignVoucher(env, account, prior).Ok?
    ensures var req := AggregationRequirements(prior, SignVoucher(env, account, prior).value);
      var next := AggregateVoucher(env, env.addressOf(account), req, now);
      && next.Ok?
      && next.value.valueAggregate == "1500000000000000000"
      && next.value.nonce == prior.nonce + 1
      && next.value.id == prior.id
      && next.value.timestamp == now
      && next.value.expiry == now + EXPIRY_TIME
  {
    var signature := SignVoucher(env, account, prior).value;
    var req := AggregationRequirements(prior, signature);
    VoucherJsonRoundTrip(prior);
    assert ParseAggregationExtra(req.extra) == Some(AggregationExtra(signature, prior));
    HalfTokenDecimal();
    NatToStringDigits(500000000000000000);
    assert ParseInt(req.maxAmountRequired) == Some(500000000000000000);
    OnlySignerCanExtend(env, account, env.addressOf(account), req, now);
    AggregateSuccessor(env, env.addressOf(account), req, now);
    var next := AggregateVoucher(env, env.addressOf(account), req, now).value;
    assert ParseInt(next.valueAggregate) == Some(1500000000000000000);
    CanonicalRoundTrip(next.valueAggregate);
    OneAndAHalfTokenDecimal();
  }

  /**
   * The client address is checked only through the signature: the prior
   * voucher's own `buyer` field is never compared with it, so a voucher
   * naming some other buyer still aggregates when the client signed it.
   */
  lemma PriorBuyerNotChecked(env: Env, account: Account, prior: Voucher, now: int)
    requires SignatureLaws(env) && KnowsBaseSepolia(env)
    requires ParseInt(prior.valueAggregate).Some?
    requires prior.chainId == 84532 && prior.timestamp <= now <= prior.expiry
    requires !SameIgnoringCase(prior.buyer, env.addressOf(account))
    requires SignVoucher(env, account, prior).Ok?
    ensures var req := AggregationRequirements(prior, SignVoucher(env, account, prior).value);
      var next := AggregateVoucher(env, env.addressOf(account), req, now);
      next.Ok? && next.value.buyer == env.checksum(env.addressOf(account))
  {
    var signature := SignVoucher(env, account, prior).value;
    var req := AggregationRequirements(prior, signature);
    VoucherJsonRoundTrip(prior);
    assert ParseAggregationExtra(req.extra) == Some(AggregationExtra(signature, prior));
    HalfTokenDecimal();
    NatToStringDigits(500000000000000000);
    assert ParseInt(req.maxAmountRequired) == Some(500000000000000000);
    OnlySignerCanExtend(env, account, env.addressOf(account), req, now);
    AggregateSuccessor(env, env.addressOf(account), req, now);
  }

  /**
   * A buyer creates a one-token voucher (nonce 0), signs it, and later,
   * while it is still valid, aggregates a half-token charge into it: the
   * result is a 1.5-token voucher with nonce 1, the same id, and a fresh
   * 30-day expiry from the time of aggregation. No single test of the
   * repository does this: it composes the creation test with the
   * aggregation test, which aggregates a prepared voucher instead.
   */
  lemma CreateSignAggregate(
    env: Env, account: Account, payTo: string, asset: string, id: string, escrow: string, created: int, now: int)
    requires SignatureLaws(env) && KnowsBaseSepolia(env)
    requires created <= now <= created + EXPIRY_TIME
    ensures var first := CreateNewVoucher(env, env.addressOf(account), NewRequirements(payTo, asset, id, escrow), created, created);
      && first.Ok?
      && first.value.nonce == 0 && first.value.valueAggregate == "1000000000000000000"
      && SignVoucher(env, account, first.value).Ok?
      && var req := AggregationRequirements(first.value, SignVoucher(env, account, first.value).value);
         var second := AggregateVoucher(env, env.addressOf(account), req, now);
         && second.Ok?
         && second.value.valueAggregate == "1500000000000000000"
         && second.value.nonce == 1
         && second.value.id == id
         && second.value.expiry == now + EXPIRY_TIME
  {
    CreateAndSign(env, account, payTo, asset, id, escrow, created);
    var first := CreateNewVoucher(env, env.addressOf(account), NewRequirements(payTo, asset, id, escrow), created, created);
    AggregateHalfToken(env, account, first.value, now);
  }

  /**
   * A signed voucher whose expiry has passed is refused as expired, even
   * though its seller, asset and chain match and whatever signature it
   * carries: the expiry check comes before the signature check.
   */
  lemma ExpiredVoucherRejected(env: Env, buyer: string, prior: Voucher, signature: string, now: int)
    requires KnowsBaseSepolia(env)
    requires prior.chainId == 84532 && prior.expiry < now
    ensures AggregateVoucher(env, buyer, AggregationRequirements(prior, signature), now) == Err(VoucherExpired)
  {
    var req := AggregationRequirements(prior, signature);
    VoucherJsonRoundTrip(prior);
    assert ParseAggregationExtra(req.extra) == Some(AggregationExtra(signature, prior));
  }
}
