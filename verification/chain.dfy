/**
 * What the market sees of the FLO blockchain and of the token layer on top
 * of it, and the two `checkTx` classifiers that decide whether a claimed
 * deposit transaction credits the claimant, is rejected for good, or has to
 * be looked at again on a later pass.
 */
module Chain {
  import opened Base

  /** One output: the addresses of its scriptPubKey and the coins it carries (1e-8 units). */
  datatype Vout = Vout(addresses: seq<Addr>, value: nat)

  /** A FLO transaction as the blockchain API returns it: input addresses, outputs, block data. */
  datatype FloTx = FloTx(vin: seq<Addr>, vout: seq<Vout>, blockheight: nat, confirmations: nat)

  /** The token layer's reading of the transaction's floData. */
  datatype ParsedData = ParsedData(kind: string, transferType: string, tokenIdentification: Asset, tokenAmount: nat)

  /** A token transaction as the token API returns it. */
  datatype TokenTx = TokenTx(parsedFloData: ParsedData, transactionDetails: FloTx)

  /** Why a claimed transaction was not accepted. */
  datatype Reason =
    | SinkNotLoaded | FetchFailed
    | NotSentBySender | OtherInputs | NotInBlock | NotConfirmed | NotToMarket
    | NotTransfer | NotTokenTransfer | TokenNotAuthorised

  /**
   * The outcome of a check: the value credited, or a failure that is
   * permanent (the claim is rejected) or retryable (it stays pending); the
   * source carries the same flag as the first element of its error pair.
   */
  datatype TxCheck<T> = Verified(value: T) | Failed(permanent: bool, reason: Reason)

  /** How many inputs come from `sender` (`vin.filter(v => v.addr === sender).length`). */
  function FromSender(vin: seq<Addr>, sender: Addr): (n: nat)
    ensures n <= |vin|
    ensures n == |vin| <==> forall i :: 0 <= i < |vin| ==> vin[i] == sender
    ensures n == 0 <==> forall i :: 0 <= i < |vin| ==> vin[i] != sender
  {
    if vin == [] then 0
    else (if vin[0] == sender then 1 else 0) + FromSender(vin[1..], sender)
  }

  /** Whether an output's first address is `receiver`. */
  predicate PaysTo(v: Vout, receiver: Addr) {
    |v.addresses| > 0 && v.addresses[0] == receiver
  }

  /** The coins the outputs pay to `receiver` (the `vout.reduce` of the source). */
  function PaidTo(vout: seq<Vout>, receiver: Addr): (amount: nat)
    ensures amount == 0 <==> forall i :: 0 <= i < |vout| && PaysTo(vout[i], receiver) ==> vout[i].value == 0
  {
    if vout == [] then 0
    else (if PaysTo(vout[0], receiver) then vout[0].value else 0) + PaidTo(vout[1..], receiver)
  }

  /**
   * `confirmDepositFLO.checkTx`: a FLO deposit is verified when every input
   * is the claimant's, it is in a block with a confirmation and it pays the
   * market's sink address something; the amount is what it pays the sink.
   * Only a missing sink address, a failed lookup and a transaction not yet in
   * a block or confirmed are retryable.
   */
  function CheckFloTx(sender: Addr, sink: Option<Addr>, tx: Option<FloTx>): (r: TxCheck<nat>)
    ensures r.Verified? <==>
      && sink.Some? && tx.Some? && |tx.value.vin| > 0
      && (forall i :: 0 <= i < |tx.value.vin| ==> tx.value.vin[i] == sender)
      && tx.value.blockheight > 0 && tx.value.confirmations > 0
      && PaidTo(tx.value.vout, sink.value) > 0
    ensures r.Verified? ==> r.value == PaidTo(tx.value.vout, sink.value) > 0
    ensures r.Failed? && r.permanent <==>
      && sink.Some? && tx.Some?
      && (|| |tx.value.vin| == 0
          || (exists i :: 0 <= i < |tx.value.vin| && tx.value.vin[i] != sender)
          || (tx.value.blockheight > 0 && tx.value.confirmations > 0 && PaidTo(tx.value.vout, sink.value) == 0))
  {
    if sink.None? then Failed(false, SinkNotLoaded)
    else if tx.None? then Failed(false, FetchFailed)
    else
      var t := tx.value;
      var n := FromSender(t.vin, sender);
      if n == 0 then Failed(true, NotSentBySender)
      else if n != |t.vin| then Failed(true, OtherInputs)
      else if t.blockheight == 0 then Failed(false, NotInBlock)
      else if t.confirmations == 0 then Failed(false, NotConfirmed)
      else
        var amount := PaidTo(t.vout, sink.value);
        if amount == 0 then Failed(true, NotToMarket) else Verified(amount)
  }

  /** What a verified token deposit credits: the token, its amount and the FLO paid to the sink. */
  datatype TokenCredit = TokenCredit(token: Asset, tokenAmount: nat, flo: nat)

  /**
   * `confirmDepositToken.checkTx`: a token deposit is verified when the
   * floData is a token transfer of a known token other than FLO, at least
   * one input is the claimant's and the transaction pays the sink some FLO.
   * Unlike a FLO deposit it neither waits for a block or a confirmation nor
   * requires every input to be the claimant's; only a missing sink address
   * and a failed lookup are retryable.
   */
  function CheckTokenTx(cfg: Config, sender: Addr, sink: Option<Addr>, tx: Option<TokenTx>): (r: TxCheck<TokenCredit>)
    ensures r.Verified? <==>
      && sink.Some? && tx.Some?
      && tx.value.parsedFloData.kind == "transfer"
      && tx.value.parsedFloData.transferType == "token"
      && KnownToken(cfg, tx.value.parsedFloData.tokenIdentification)
      && tx.value.parsedFloData.tokenIdentification != FLO
      && (exists i :: 0 <= i < |tx.value.transactionDetails.vin| && tx.value.transactionDetails.vin[i] == sender)
      && PaidTo(tx.value.transactionDetails.vout, sink.value) > 0
    ensures r.Verified? ==>
      r.value == TokenCredit(tx.value.parsedFloData.tokenIdentification, tx.value.parsedFloData.tokenAmount,
                             PaidTo(tx.value.transactionDetails.vout, sink.value))
    ensures r.Verified? ==> r.value.token != FLO && r.value.flo > 0
    ensures r.Failed? && !r.permanent <==> sink.None? || tx.None?
  {
    if sink.None? then Failed(false, SinkNotLoaded)
    else if tx.None? then Failed(false, FetchFailed)
    else
      var p := tx.value.parsedFloData;
      var d := tx.value.transactionDetails;
      if p.kind != "transfer" then Failed(true, NotTransfer)
      else if p.transferType != "token" then Failed(true, NotTokenTransfer)
      else if !KnownToken(cfg, p.tokenIdentification) || p.tokenIdentification == FLO then Failed(true, TokenNotAuthorised)
      else if FromSender(d.vin, sender) == 0 then Failed(true, NotSentBySender)
      else
        var flo := PaidTo(d.vout, sink.value);
        if flo == 0 then Failed(true, NotToMarket)
        else Verified(TokenCredit(p.tokenIdentification, p.tokenAmount, flo))
  }

  /**
   * A FLO transaction verifies for at most one claimant: every input must be
   * the claimant's, so two accounts cannot both be credited for it.
   */
  lemma FloDepositExclusive(a1: Addr, a2: Addr, sink: Option<Addr>, tx: Option<FloTx>)
    requires CheckFloTx(a1, sink, tx).Verified? && CheckFloTx(a2, sink, tx).Verified?
    ensures a1 == a2
  {
    assert tx.value.vin[0] == a1;
  }

  /**
   * A token transaction, by contrast, verifies for every account that signed
   * one of its inputs: a transaction with inputs from two accounts is
   * verified for each of them, with the same token amount.
   */
  lemma TokenDepositShared(cfg: Config, a1: Addr, a2: Addr, sink: Addr, token: Asset, amount: nat)
    requires KnownToken(cfg, token) && token != FLO
    ensures exists tx: TokenTx ::
      && CheckTokenTx(cfg, a1, Some(sink), Some(tx)) == Verified(TokenCredit(token, amount, 1))
      && CheckTokenTx(cfg, a2, Some(sink), Some(tx)) == Verified(TokenCredit(token, amount, 1))
  {
    var tx := TokenTx(ParsedData("transfer", "token", token, amount), FloTx([a1, a2], [Vout([sink], 1)], 0, 0));
    assert tx.transactionDetails.vin[0] == a1 && tx.transactionDetails.vin[1] == a2;
    assert PaidTo(tx.transactionDetails.vout, sink) == 1 by {
      assert tx.transactionDetails.vout[1..] == [];
    }
    assert FromSender(tx.transactionDetails.vin, a1) > 0;
    assert FromSender(tx.transactionDetails.vin, a2) > 0;
    assert CheckTokenTx(cfg, a1, Some(sink), Some(tx)) == Verified(TokenCredit(token, amount, 1));
    assert CheckTokenTx(cfg, a2, Some(sink), Some(tx)) == Verified(TokenCredit(token, amount, 1));
  }
}
