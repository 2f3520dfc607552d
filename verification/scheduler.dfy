/**
 * Transaction lookup by id and the periodic blockchain re-check that runs
 * the confirmation and retry passes in a fixed order.
 */
module Scheduler {
  import opened Base
  import opened Ledger
  import opened Store
  import opened Chain
  import opened Transfers
  import opened Deposits
  import opened Withdrawals

  /** The table a transaction id names, by its prefix. */
  datatype Kind = TransferKind | TradeKind

  /** The row `getTransactionDetails` resolves with, tagged with its kind. */
  datatype Details = TransferDetails(transfer: TransferRecord) | TradeDetails(trade: TradeRecord)

  /**
   * The prefix dispatch of `getTransactionDetails`: the transfer prefix is
   * tried first, then the trade prefix; any other id is invalid.
   */
  function KindOf(cfg: Config, txid: Txid): (k: Option<Kind>)
    ensures k == Some(TransferKind) <==> StartsWith(txid, cfg.transferPrefix)
    ensures k == Some(TradeKind) <==> !StartsWith(txid, cfg.transferPrefix) && StartsWith(txid, cfg.tradePrefix)
    ensures k == None <==> !StartsWith(txid, cfg.transferPrefix) && !StartsWith(txid, cfg.tradePrefix)
  {
    if StartsWith(txid, cfg.transferPrefix) then Some(TransferKind)
    else if StartsWith(txid, cfg.tradePrefix) then Some(TradeKind)
    else None
  }

  /** `SELECT * ... WHERE txid=?`: the first record whose id (read by `key`) is `txid`, if any. */
  function FindRecord<R>(rs: seq<R>, key: R -> Txid, txid: Txid): (r: Option<nat>)
    ensures r.Some? ==> r.value < |rs| && key(rs[r.value]) == txid && forall j :: 0 <= j < r.value ==> key(rs[j]) != txid
    ensures r.None? <==> forall j :: 0 <= j < |rs| ==> key(rs[j]) != txid
  {
    if rs == [] then None
    else if key(rs[0]) == txid then Some(0)
    else match FindRecord(rs[1..], key, txid)
      case None => None
      case Some(k) => Some(k + 1)
  }

  /**
   * `getTransactionDetails`: an id with neither prefix is invalid; otherwise
   * the first row with that id in the table its prefix names, or not found.
   */
  function GetTransactionDetails(m: Market, txid: Txid): (r: Result<Details>)
    reads m
    ensures KindOf(m.cfg, txid) == None <==> r == Err(InvalidTransactionID)
    ensures r.Ok? && r.value.TransferDetails? ==> KindOf(m.cfg, txid) == Some(TransferKind) && r.value.transfer.txid == txid
    ensures r.Ok? && r.value.TradeDetails? ==> KindOf(m.cfg, txid) == Some(TradeKind) && r.value.trade.txid == txid
    ensures r.Ok? && r.value.TransferDetails? ==>
      exists j :: 0 <= j < |m.transfers| && m.transfers[j] == r.value.transfer
        && forall k :: 0 <= k < j ==> m.transfers[k].txid != txid
    ensures r.Ok? && r.value.TradeDetails? ==>
      exists j :: 0 <= j < |m.trades| && m.trades[j] == r.value.trade
        && forall k :: 0 <= k < j ==> m.trades[k].txid != txid
    ensures r == Err(TransactionNotFound) <==>
      || (KindOf(m.cfg, txid) == Some(TransferKind) && forall j :: 0 <= j < |m.transfers| ==> m.transfers[j].txid != txid)
      || (KindOf(m.cfg, txid) == Some(TradeKind) && forall j :: 0 <= j < |m.trades| ==> m.trades[j].txid != txid)
  {
    match KindOf(m.cfg, txid)
    case None => Err(InvalidTransactionID)
    case Some(TransferKind) =>
      (match FindRecord(m.transfers, (t: TransferRecord) => t.txid, txid)
       case None => Err(TransactionNotFound)
       case Some(i) => Ok(TransferDetails(m.transfers[i])))
    case Some(TradeKind) =>
      (match FindRecord(m.trades, (t: TradeRecord) => t.txid, txid)
       case None => Err(TransactionNotFound)
       case Some(i) => Ok(TradeDetails(m.trades[i])))
  }

  /**
   * An id `Transfer` hands out is always routed to the transfer table, and a
   * recorded transfer is found under it, even when the trade prefix would
   * match the id too.
   */
  lemma RecordedTransferFound(m: Market, i: nat)
    requires i < |m.transfers|
    requires StartsWith(m.transfers[i].txid, m.cfg.transferPrefix)
    ensures GetTransactionDetails(m, m.transfers[i].txid).Ok?
    ensures GetTransactionDetails(m, m.transfers[i].txid).value.TransferDetails?
  {
    assert FindRecord(m.transfers, (t: TransferRecord) => t.txid, m.transfers[i].txid).Some?;
  }

  /**
   * `blockchainReCheck` with `sink` the market's own address, `chain` and
   * `tokens` the blockchain and token-layer lookups and `sendFlo` and
   * `sendToken` the broadcast results per payout row. Without a sink address
   * nothing is done and the check is re-armed (`ran` is false). Otherwise the
   * six passes run one after the other in the order the source starts
   * them: FLO deposits, token deposits, FLO and token re-broadcasts, then
   * FLO and token confirmations. The source starts them without waiting for
   * each other; running them in sequence is this model's choice.
   */
  method BlockchainReCheck(m: Market, sink: Option<Addr>, chain: Txid -> Option<FloTx>,
                           tokens: Txid -> Option<TokenTx>, sendFlo: nat -> Option<Txid>,
                           sendToken: nat -> Option<Txid>) returns (ran: bool)
    requires m.Valid()
    modifies m`balances, m`inputFLO, m`inputToken, m`outputFLO, m`outputToken
    ensures m.Valid()
    ensures ran <==> sink.Some?
    ensures !ran ==>
      && m.balances == old(m.balances) && m.inputFLO == old(m.inputFLO) && m.inputToken == old(m.inputToken)
      && m.outputFLO == old(m.outputFLO) && m.outputToken == old(m.outputToken)
    ensures Matched(old(m.balances), m.balances, old(m.inputFLO), m.inputFLO, old(m.inputToken), m.inputToken)
    ensures Grew(old(m.balances), m.balances)
    ensures |m.outputFLO| == |old(m.outputFLO)| && |m.outputToken| == |old(m.outputToken)|
    ensures ran ==> |old(m.inputFLO)| <= |m.inputFLO|
    ensures ran ==> forall i :: 0 <= i < |old(m.inputFLO)| ==>
      m.inputFLO[i] == Settle(old(m.inputFLO)[i], None, FloVerdict(old(m.inputFLO)[i], sink, chain))
    ensures ran ==> m.inputFLO[|old(m.inputFLO)|..] == Receipts(m.cfg, old(m.inputToken), old(m.inputFLO), sink, tokens)
    ensures |m.inputToken| == |old(m.inputToken)|
    ensures ran ==> forall i :: 0 <= i < |m.inputToken| ==>
      var verdict := TokenVerdict(m.cfg, old(m.inputToken)[i], sink, tokens);
      m.inputToken[i] == Settle(old(m.inputToken)[i], TokenOf(verdict), TokenAmount(verdict))
    ensures ran ==> forall i :: 0 <= i < |m.outputFLO| ==>
      m.outputFLO[i] == ConfirmFlo(Retry(old(m.outputFLO)[i], sendFlo(i)), chain)
    ensures ran ==> forall i :: 0 <= i < |m.outputToken| ==>
      m.outputToken[i] == ConfirmToken(Retry(old(m.outputToken)[i], sendToken(i)), tokens)
    ensures forall i :: 0 <= i < |m.outputFLO| ==> Advanced(old(m.outputFLO)[i], m.outputFLO[i])
    ensures forall i :: 0 <= i < |m.outputToken| ==> Advanced(old(m.outputToken)[i], m.outputToken[i])
  {
    if sink.None? {
      MatchedRefl(m.balances, m.inputFLO, m.inputToken);
      return false;
    }
    DepositPasses(m, sink, chain, tokens);
    PayoutPasses(m, chain, tokens, sendFlo, sendToken);
    return true;
  }

  /** The two deposit confirmation passes, FLO first. */
  method DepositPasses(m: Market, sink: Option<Addr>, chain: Txid -> Option<FloTx>, tokens: Txid -> Option<TokenTx>)
    requires m.Valid()
    modifies m`balances, m`inputFLO, m`inputToken
    ensures m.Valid()
    ensures |old(m.inputFLO)| <= |m.inputFLO|
    ensures forall i :: 0 <= i < |old(m.inputFLO)| ==>
      m.inputFLO[i] == Settle(old(m.inputFLO)[i], None, FloVerdict(old(m.inputFLO)[i], sink, chain))
    ensures m.inputFLO[|old(m.inputFLO)|..] == Receipts(m.cfg, old(m.inputToken), old(m.inputFLO), sink, tokens)
    ensures |m.inputToken| == |old(m.inputToken)|
    ensures forall i :: 0 <= i < |m.inputToken| ==>
      var verdict := TokenVerdict(m.cfg, old(m.inputToken)[i], sink, tokens);
      m.inputToken[i] == Settle(old(m.inputToken)[i], TokenOf(verdict), TokenAmount(verdict))
    ensures Matched(old(m.balances), m.balances, old(m.inputFLO), m.inputFLO, old(m.inputToken), m.inputToken)
    ensures Grew(old(m.balances), m.balances)
  {
    ghost var b0, f0, t0 := m.balances, m.inputFLO, m.inputToken;
    ConfirmDepositFLO(m, sink, chain);
    ghost var b1, f1 := m.balances, m.inputFLO;
    // settling keeps every claim's key, so the receipts are decided as on the claims before the FLO pass
    ReceiptsSameKeys(m.cfg, t0, f1, f0, sink, tokens);
    ConfirmDepositToken(m, sink, tokens);
    assert m.inputFLO[|f0|..] == Receipts(m.cfg, t0, f1, sink, tokens);
    MatchedTrans(b0, b1, m.balances, f0, f1, m.inputFLO, t0, t0, m.inputToken);
  }

  /** The four payout passes: both re-broadcasts, then both confirmations. */
  method PayoutPasses(m: Market, chain: Txid -> Option<FloTx>, tokens: Txid -> Option<TokenTx>,
                      sendFlo: nat -> Option<Txid>, sendToken: nat -> Option<Txid>)
    modifies m`outputFLO, m`outputToken
    ensures |m.outputFLO| == |old(m.outputFLO)| && |m.outputToken| == |old(m.outputToken)|
    ensures forall i :: 0 <= i < |m.outputFLO| ==>
      m.outputFLO[i] == ConfirmFlo(Retry(old(m.outputFLO)[i], sendFlo(i)), chain)
    ensures forall i :: 0 <= i < |m.outputToken| ==>
      m.outputToken[i] == ConfirmToken(Retry(old(m.outputToken)[i], sendToken(i)), tokens)
  {
    RetryWithdrawalFLO(m, sendFlo);
    RetryWithdrawalToken(m, sendToken);
    ConfirmWithdrawalFLO(m, chain);
    ConfirmWithdrawalToken(m, tokens);
  }
}
