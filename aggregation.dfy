/**
 * What creation, aggregation and header preparation promise: the fields a
 * new voucher starts with, the order of the aggregation checks, what a
 * successor keeps, changes and adds, and who may extend a voucher.
 */
module AggregationProperties {
  import opened Wrappers
  import opened Text
  import opened JsonValues
  import opened Foreign
  import opened Vouchers
  import opened Signing
  import opened Deferred

  // ---------------------------------------------------------------------
  // Creation

  /**
   * A new voucher's addresses are in checksum form and name the addresses
   * it was built from; it expires 30 days after the second clock reading,
   * which is after its timestamp unless the clock went back 30 days.
   */
  lemma NewVoucherNormalised(env: Env, buyer: string, req: PaymentRequirements, now: int, later: int)
    requires ChecksumLaws(env)
    requires CreateNewVoucher(env, buyer, req, now, later).Ok?
    ensures var v := CreateNewVoucher(env, buyer, req, now, later).value;
      var escrow := ParseNewVoucherExtra(req.extra).value.escrow;
      && SameIgnoringCase(v.buyer, buyer) && env.checksum(v.buyer) == v.buyer
      && SameIgnoringCase(v.seller, req.payTo) && env.checksum(v.seller) == v.seller
      && SameIgnoringCase(v.asset, req.asset) && env.checksum(v.asset) == v.asset
      && SameIgnoringCase(v.escrow, escrow) && env.checksum(v.escrow) == v.escrow
      && (later > now - EXPIRY_TIME ==> v.expiry > v.timestamp)
      && (later == now ==> v.expiry - v.timestamp == EXPIRY_TIME)
  {
    ChecksumIdempotent(env, buyer);
    ChecksumIdempotent(env, req.payTo);
    ChecksumIdempotent(env, req.asset);
    ChecksumIdempotent(env, ParseNewVoucherExtra(req.extra).value.escrow);
  }

  // ---------------------------------------------------------------------
  // The aggregation checks, as a list

  datatype Check = Pass | Fail(error: DeferredError)

  function Need(passes: bool, e: DeferredError): Check
  {
    if passes then Pass else Fail(e)
  }

  /** The error of the first failing check, if any. */
  function FirstFailure(checks: seq<Check>): (r: Option<DeferredError>)
    ensures r.None? <==> forall i :: 0 <= i < |checks| ==> checks[i].Pass?
    ensures r.Some? ==>
      exists i :: 0 <= i < |checks| && checks[i] == Fail(r.value) && forall j :: 0 <= j < i ==> checks[j].Pass?
  {
    if checks == [] then None
    else if checks[0].Fail? then Some(checks[0].error)
    else
      var rest := FirstFailure(checks[1..]);
      assert forall i :: 1 <= i < |checks| ==> checks[i] == checks[1..][i - 1];
      rest
  }

  /**
   * The checks aggregation makes on a parsed prior voucher, in the order
   * the code makes them: seller, asset, chain id (an unknown network fails
   * here too), not expired, not from the future, the buyer's signature,
   * and finally a decimal charge.
   */
  function AggregationChecks(env: Env, buyer: string, req: PaymentRequirements, extra: AggregationExtra, now: int)
    : seq<Check>
  {
    var v := extra.voucher;
    [ Need(SameIgnoringCase(req.payTo, v.seller), InvalidSeller),
      Need(SameIgnoringCase(req.asset, v.asset), InvalidAsset),
      (match env.chainIdOf(req.network)
       case None => Fail(UnknownNetwork)
       case Some(c) => Need(c == v.chainId, InvalidChainId)),
      Need(now <= v.expiry, VoucherExpired),
      Need(v.timestamp <= now, VoucherTimestampInFuture),
      (match VerifyVoucher(env, v, extra.signature, buyer)
       case Err(e) => Fail(e)
       case Ok(valid) => Need(valid, InvalidVoucherSignature)),
      Need(ParseInt(req.maxAmountRequired).Some?, InvalidAmount) ]
  }

  /**
   * Aggregation is all or nothing and the first failing check decides the
   * error: it succeeds exactly when every check passes, and otherwise
   * fails with the error of the earliest failing one. Both time checks are
   * inclusive, so `now == expiry` and `now == timestamp` pass.
   */
  lemma AggregateFollowsChecks(env: Env, buyer: string, req: PaymentRequirements, now: int)
    ensures ParseAggregationExtra(req.extra).None? ==>
      AggregateVoucher(env, buyer, req, now) == Err(InvalidAggregationExtra)
    ensures ParseAggregationExtra(req.extra).Some? ==>
      var checks := AggregationChecks(env, buyer, req, ParseAggregationExtra(req.extra).value, now);
      && (AggregateVoucher(env, buyer, req, now).Ok? <==> FirstFailure(checks).None?)
      && (AggregateVoucher(env, buyer, req, now).Err? ==>
            FirstFailure(checks) == Some(AggregateVoucher(env, buyer, req, now).error))
  {
    if ParseAggregationExtra(req.extra).Some? {
      var extra := ParseAggregationExtra(req.extra).value;
      var v := extra.voucher;
      var checks := AggregationChecks(env, buyer, req, extra, now);
      var r := AggregateVoucher(env, buyer, req, now);
      if checks[0].Fail? {
        assert r == Err(InvalidSeller);
      } else if checks[1].Fail? {
        assert r == Err(InvalidAsset);
        assert FirstFailure(checks) == FirstFailure(checks[1..]);
      } else {
        assert FirstFailure(checks) == FirstFailure(checks[2..]) by {
          assert FirstFailure(checks) == FirstFailure(checks[1..]);
          assert checks[1..][1..] == checks[2..];
        }
        var tail := checks[2..];
        assert tail == checks[2..3] + checks[3..];
        if tail[0].Fail? {
          assert FirstFailure(tail) == Some(tail[0].error);
        } else {
          assert FirstFailure(tail) == FirstFailure(tail[1..]);
          assert tail[1..] == checks[3..];
          LaterChecks(env, buyer, req, extra, now);
        }
      }
    }
  }

  /** The part of AggregateFollowsChecks after the chain id has matched. */
  lemma LaterChecks(env: Env, buyer: string, req: PaymentRequirements, extra: AggregationExtra, now: int)
    requires ParseAggregationExtra(req.extra) == Some(extra)
    requires var checks := AggregationChecks(env, buyer, req, extra, now);
      checks[0] == Pass && checks[1] == Pass && checks[2] == Pass
    ensures var checks := AggregationChecks(env, buyer, req, extra, now);
      var r := AggregateVoucher(env, buyer, req, now);
      && (r.Ok? <==> FirstFailure(checks[3..]).None?)
      && (r.Err? ==> FirstFailure(checks[3..]) == Some(r.error))
  {
    var v := extra.voucher;
    var checks := AggregationChecks(env, buyer, req, extra, now);
    var r := AggregateVoucher(env, buyer, req, now);
    var c3 := checks[3..];
    assert c3[1..] == checks[4..] && c3[1..][1..] == checks[5..] && checks[5..][1..] == checks[6..];
    assert env.chainIdOf(req.network) == Some(v.chainId);
    if now > v.expiry {
      assert r == Err(VoucherExpired);
    } else if now < v.timestamp {
      assert r == Err(VoucherTimestampInFuture);
      assert FirstFailure(c3) == FirstFailure(checks[4..]);
    } else {
      assert FirstFailure(c3) == FirstFailure(checks[5..]) by {
        assert FirstFailure(c3) == FirstFailure(checks[4..]);
      }
      var verdict := VerifyVoucher(env, v, extra.signature, buyer);
      if verdict.Err? {
        assert r == Err(verdict.error);
      } else if !verdict.value {
        assert r == Err(InvalidVoucherSignature);
      } else {
        assert FirstFailure(checks[5..]) == FirstFailure(checks[6..]);
        assert ParseInt(v.valueAggregate).Some?;
      }
    }
  }

  // ---------------------------------------------------------------------
  // The successor voucher

  /**
   * A successful aggregation keeps the prior voucher's id, seller, asset,
   * escrow and chain id; takes the buyer in checksum form; adds the charge
   * to the value with unbounded integers, written back as a canonical
   * decimal; counts the nonce up by one; and restarts the 30-day validity
   * at `now`, which lies within the prior voucher's validity. So the value
   * never goes down when the charge is not negative, and stays the same
   * exactly when the charge is zero; the code does not reject a negative
   * charge.
   */
  lemma AggregateSuccessor(env: Env, buyer: string, req: PaymentRequirements, now: int)
    requires AggregateVoucher(env, buyer, req, now).Ok?
    ensures var prior := ParseAggregationExtra(req.extra).value.voucher;
      var next := AggregateVoucher(env, buyer, req, now).value;
      && next.id == prior.id
      && next.seller == prior.seller
      && next.asset == prior.asset
      && next.escrow == prior.escrow
      && next.chainId == prior.chainId
      && next.buyer == env.checksum(buyer)
      && next.nonce == prior.nonce + 1
      && next.timestamp == now
      && next.expiry == now + EXPIRY_TIME
      && prior.timestamp <= next.timestamp <= prior.expiry
      && next.expiry > next.timestamp
      && ParseInt(req.maxAmountRequired).Some?
      && ParseInt(prior.valueAggregate).Some?
      && ParseInt(next.valueAggregate)
         == Some(ParseInt(req.maxAmountRequired).value + ParseInt(prior.valueAggregate).value)
      && IsCanonicalDecimal(next.valueAggregate)
      && (ParseInt(req.maxAmountRequired).value >= 0 ==>
            ParseInt(next.valueAggregate).value >= ParseInt(prior.valueAggregate).value)
      && (ParseInt(req.maxAmountRequired).value == 0 <==>
            ParseInt(next.valueAggregate) == ParseInt(prior.valueAggregate))
  {
    var prior := ParseAggregationExtra(req.extra).value.voucher;
    var charge := ParseInt(req.maxAmountRequired).value;
    var value := ParseInt(prior.valueAggregate).value;
    IntToStringRoundTrip(charge + value);
  }

  // ---------------------------------------------------------------------
  // The trust anchor

  /**
   * If the prior voucher's signature was made by some account, aggregation
   * succeeds exactly when the other checks pass and the claimed buyer is
   * that account's address (up to case): only the buyer who signed the
   * prior voucher can extend it.
   */
  lemma OnlySignerCanExtend(env: Env, account: Account, buyer: string, req: PaymentRequirements, now: int)
    requires SignatureLaws(env)
    requires ParseAggregationExtra(req.extra).Some?
    requires var e := ParseAggregationExtra(req.extra).value; SignVoucher(env, account, e.voucher) == Ok(e.signature)
    ensures var v := ParseAggregationExtra(req.extra).value.voucher;
      AggregateVoucher(env, buyer, req, now).Ok? <==>
        && SameIgnoringCase(req.payTo, v.seller)
        && SameIgnoringCase(req.asset, v.asset)
        && env.chainIdOf(req.network) == Some(v.chainId)
        && v.timestamp <= now <= v.expiry
        && SameIgnoringCase(env.addressOf(account), buyer)
        && ParseInt(req.maxAmountRequired).Some?
  {
    var e := ParseAggregationExtra(req.extra).value;
    SignThenVerify(env, account, e.voucher, buyer);
    SignatureFormat(env, account, e.voucher);
  }

  // ---------------------------------------------------------------------
  // Header preparation

  /**
   * `prepare_payment_header` fails when `extra` is absent, empty or has no
   * "type"; sends "new" to creation and "aggregation" to aggregation,
   * passing their errors through; and rejects any other type.
   */
  lemma PrepareDispatch(env: Env, sender: string, x402Version: int, req: PaymentRequirements, now: int, later: int)
    ensures var r := PreparePaymentHeader(env, sender, x402Version, req, now, later);
      && ((req.extra.None? || "type" !in req.extra.value) ==> r == Err(MissingExtraType))
      && (req.extra.Some? && "type" in req.extra.value ==>
           var t := req.extra.value["type"];
           var created := CreateNewVoucher(env, sender, req, now, later);
           var aggregated := AggregateVoucher(env, sender, req, now);
           && (t == JStr("new") ==>
                 r == if created.Ok? then Ok(UnsignedHeader(x402Version, req.network, created.value))
                      else Err(created.error))
           && (t == JStr("aggregation") ==>
                 r == if aggregated.Ok? then Ok(UnsignedHeader(x402Version, req.network, aggregated.value))
                      else Err(aggregated.error))
           && (t != JStr("new") && t != JStr("aggregation") ==> r == Err(UnknownVoucherType(t))))
  {
    if req.extra.Some? && "type" in req.extra.value {
      assert |req.extra.value| > 0;
    }
  }

  /**
   * A prepared header carries the version and network it was given, the
   * "deferred" scheme, no signature, and a voucher dict that parses back
   * to the voucher creation or aggregation built.
   */
  lemma PreparedHeaderShape(env: Env, sender: string, x402Version: int, req: PaymentRequirements, now: int, later: int)
    requires PreparePaymentHeader(env, sender, x402Version, req, now, later).Ok?
    ensures var h := PreparePaymentHeader(env, sender, x402Version, req, now, later).value;
      && h.x402Version == x402Version
      && h.scheme == DEFERRED_SCHEME
      && h.network == req.network
      && h.payload.signature == None
      && VoucherFromJson(h.payload.voucher).Some?
      && (req.extra.value["type"] == JStr("new") ==>
            VoucherFromJson(h.payload.voucher) == Some(CreateNewVoucher(env, sender, req, now, later).value))
      && (req.extra.value["type"] == JStr("aggregation") ==>
            VoucherFromJson(h.payload.voucher) == Some(AggregateVoucher(env, sender, req, now).value))
  {
    PrepareDispatch(env, sender, x402Version, req, now, later);
    var t := req.extra.value["type"];
    if t == JStr("new") {
      VoucherJsonRoundTrip(CreateNewVoucher(env, sender, req, now, later).value);
    } else {
      VoucherJsonRoundTrip(AggregateVoucher(env, sender, req, now).value);
    }
  }
}
