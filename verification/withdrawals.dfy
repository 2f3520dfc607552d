/**
 * Withdrawals. A request debits the account once and records the payout:
 * WAITING_CONFIRMATION when the broadcast returned a transaction id, queued
 * (PENDING) otherwise. Later passes re-broadcast queued payouts and confirm
 * broadcast ones; they move only the payout's status and never a balance.
 */
module Withdrawals {
  import opened Base
  import opened Ledger
  import opened Store
  import opened Chain

  /** Whether a broadcast produced a transaction id (an empty id is falsy in the source). */
  predicate Broadcast(sent: Option<Txid>) {
    sent.Some? && sent.value != ""
  }

  /** The row a withdrawal request records for its broadcast result. */
  function NewPayout(floID: Addr, token: Asset, amount: nat, sent: Option<Txid>): (p: Payout)
    ensures p.floID == floID && p.token == token && p.amount == amount
    ensures p.status == WaitingConfirmation <==> Broadcast(sent)
    ensures p.status == Queued <==> !Broadcast(sent)
    ensures Broadcast(sent) ==> p.txid == sent
  {
    if Broadcast(sent) then Payout(floID, token, amount, sent, WaitingConfirmation)
    else Payout(floID, token, amount, None, Queued)
  }

  /** The sum of the amounts of the payouts of `t` to `a`. */
  function Withdrawn(ps: seq<Payout>, a: Addr, t: Asset): nat {
    if ps == [] then 0
    else
      var p := ps[|ps| - 1];
      Withdrawn(ps[..|ps| - 1], a, t) + (if p.floID == a && p.token == t then p.amount else 0)
  }

  lemma WithdrawnAppend(ps: seq<Payout>, p: Payout, a: Addr, t: Asset)
    ensures Withdrawn(ps + [p], a, t) == Withdrawn(ps, a, t) + (if p.floID == a && p.token == t then p.amount else 0)
  {
    assert (ps + [p])[..|ps|] == ps;
  }

  /**
   * `withdrawFLO`, with `sent` the result of broadcasting the payment. A bad
   * address, a non-positive amount or a failed FLO availability check
   * rejects the request and nothing changes. Otherwise the account's FLO
   * falls by exactly the amount, which the new payout row records, and no
   * other balance moves.
   */
  method WithdrawFLO(m: Market, floID: Addr, amount: int, sent: Option<Txid>) returns (r: Result<()>)
    requires m.Valid()
    modifies m`balances, m`outputFLO
    ensures m.Valid()
    ensures !m.cfg.validAddr(floID) ==> r == Err(InvalidFloID)
    ensures m.cfg.validAddr(floID) && amount <= 0 ==> r == Err(InvalidAmount)
    ensures r.Ok? <==> m.cfg.validAddr(floID) && amount > 0 && old(m.CheckAvailable(floID, FLO, amount)) == Available
    ensures r.Ok? ==> amount > 0 && m.outputFLO == old(m.outputFLO) + [NewPayout(floID, FLO, amount, sent)]
    ensures r.Ok? ==> forall a: Addr, t: Asset ::
      TotalOf(m.balances, a, t) + (if a == floID && t == FLO then amount else 0) == old(TotalOf(m.balances, a, t))
    ensures r.Ok? ==> forall a: Addr, t: Asset ::
      TotalOf(m.balances, a, t) + Withdrawn(m.outputFLO, a, t) == old(TotalOf(m.balances, a, t) + Withdrawn(m.outputFLO, a, t))
    ensures r.Ok? ==> Supply(m.balances, FLO) + amount == old(Supply(m.balances, FLO))
    ensures r.Err? ==> m.balances == old(m.balances) && m.outputFLO == old(m.outputFLO)
  {
    if !m.cfg.validAddr(floID) {
      return Err(InvalidFloID);
    }
    if amount <= 0 {
      return Err(InvalidAmount);
    }
    var verdict := m.CheckAvailable(floID, FLO, amount);
    if verdict != Available {
      return Err(CheckError(verdict, FLO));
    }
    DebitKeepsSolvent(m.balances, m.cfg.currency, m.sellOrders, m.buyOrders, floID, FLO, amount);
    SupplyDebit(m.balances, floID, FLO, amount, FLO);
    ghost var ps := m.outputFLO;
    m.balances := Debit(m.balances, floID, FLO, amount);
    var p := NewPayout(floID, FLO, amount, sent);
    m.outputFLO := m.outputFLO + [p];
    forall a: Addr, t: Asset
      ensures Withdrawn(m.outputFLO, a, t) == Withdrawn(ps, a, t) + (if a == floID && t == FLO then amount else 0)
    {
      WithdrawnAppend(ps, p, a, t);
    }
    return Ok(());
  }

  /** The rejection `withdrawToken` gives a token: unknown, or FLO itself. */
  predicate WithdrawableToken(cfg: Config, token: Asset) {
    KnownToken(cfg, token) && token != FLO
  }

  /**
   * `withdrawToken`, with `sent` the result of sending the tokens. Besides
   * the usual argument checks, the token must be a known token other than
   * FLO, and the account must have sendAmt + fee FLO and the amount of the
   * token available. On success both are debited, the token payout is
   * recorded, and no other balance moves; on a rejection nothing changes.
   */
  method WithdrawToken(m: Market, floID: Addr, token: Asset, amount: int, sent: Option<Txid>) returns (r: Result<()>)
    requires m.Valid()
    modifies m`balances, m`outputToken
    ensures m.Valid()
    ensures !m.cfg.validAddr(floID) ==> r == Err(InvalidFloID)
    ensures m.cfg.validAddr(floID) && amount <= 0 ==> r == Err(InvalidAmount)
    ensures m.cfg.validAddr(floID) && amount > 0 && !WithdrawableToken(m.cfg, token) ==> r == Err(InvalidToken)
    ensures r.Ok? <==>
      && m.cfg.validAddr(floID) && amount > 0 && WithdrawableToken(m.cfg, token)
      && old(m.CheckAvailable(floID, FLO, m.cfg.sendAmt + m.cfg.fee)) == Available
      && old(m.CheckAvailable(floID, token, amount)) == Available
    ensures r.Ok? ==> amount > 0 && m.outputToken == old(m.outputToken) + [NewPayout(floID, token, amount, sent)]
    ensures r.Ok? ==> forall a: Addr, t: Asset ::
      TotalOf(m.balances, a, t)
        + (if a == floID && t == FLO then m.cfg.sendAmt + m.cfg.fee else 0)
        + (if a == floID && t == token then amount else 0)
      == old(TotalOf(m.balances, a, t))
    ensures r.Err? ==> m.balances == old(m.balances) && m.outputToken == old(m.outputToken)
  {
    if !m.cfg.validAddr(floID) {
      return Err(InvalidFloID);
    }
    if amount <= 0 {
      return Err(InvalidAmount);
    }
    if !WithdrawableToken(m.cfg, token) {
      return Err(InvalidToken);
    }
    var required := m.cfg.sendAmt + m.cfg.fee;
    var forFee := m.CheckAvailable(floID, FLO, required);
    if forFee != Available {
      return Err(CheckError(forFee, FLO));
    }
    var forToken := m.CheckAvailable(floID, token, amount);
    if forToken != Available {
      return Err(CheckError(forToken, token));
    }
    DebitKeepsSolvent(m.balances, m.cfg.currency, m.sellOrders, m.buyOrders, floID, FLO, required);
    m.balances := Debit(m.balances, floID, FLO, required);
    assert m.CheckAvailable(floID, token, amount) == forToken;
    DebitKeepsSolvent(m.balances, m.cfg.currency, m.sellOrders, m.buyOrders, floID, token, amount);
    m.balances := Debit(m.balances, floID, token, amount);
    m.outputToken := m.outputToken + [NewPayout(floID, token, amount, sent)];
    return Ok(());
  }

  // ---------------------------------------------------------------------
  // The payout passes
  // ---------------------------------------------------------------------

  /** How far a payout has progressed. */
  function Rank(s: PayoutStatus): nat {
    match s
    case Queued => 0
    case WaitingConfirmation => 1
    case Confirmed => 2
  }

  /** A later state of the same payout: same account, token and amount, status no further back. */
  predicate Advanced(p: Payout, p': Payout) {
    && p'.floID == p.floID && p'.token == p.token && p'.amount == p.amount
    && Rank(p.status) <= Rank(p'.status)
    && (p.status == Confirmed ==> p' == p)
  }

  /** `retryWithdrawal*` on one row: a queued payout whose re-broadcast produced an id starts waiting. */
  function Retry(p: Payout, sent: Option<Txid>): (p': Payout)
    ensures Advanced(p, p')
    ensures p'.status == WaitingConfirmation && p.status == Queued <==> p.status == Queued && Broadcast(sent)
    ensures p.status != Queued || !Broadcast(sent) ==> p' == p
    ensures p.status == Queued && Broadcast(sent) ==> p'.txid == sent
  {
    if p.status == Queued && Broadcast(sent) then p.(status := WaitingConfirmation, txid := sent) else p
  }

  /** `confirmWithdrawalFLO` on one row: a waiting payout is done once its transaction is in a block and confirmed. */
  function ConfirmFlo(p: Payout, chain: Txid -> Option<FloTx>): (p': Payout)
    ensures Advanced(p, p')
    ensures p'.status == Confirmed && p.status != Confirmed <==>
      && p.status == WaitingConfirmation && p.txid.Some? && chain(p.txid.value).Some?
      && chain(p.txid.value).value.blockheight > 0 && chain(p.txid.value).value.confirmations > 0
    ensures p' == p || p' == p.(status := Confirmed)
  {
    if p.status == WaitingConfirmation && p.txid.Some? then
      match chain(p.txid.value)
      case None => p
      case Some(tx) => if tx.blockheight == 0 || tx.confirmations == 0 then p else p.(status := Confirmed)
    else p
  }

  /** `confirmWithdrawalToken` on one row: a waiting payout is done as soon as the token layer finds its transaction. */
  function ConfirmToken(p: Payout, tokens: Txid -> Option<TokenTx>): (p': Payout)
    ensures Advanced(p, p')
    ensures p'.status == Confirmed && p.status != Confirmed <==>
      p.status == WaitingConfirmation && p.txid.Some? && tokens(p.txid.value).Some?
    ensures p' == p || p' == p.(status := Confirmed)
  {
    if p.status == WaitingConfirmation && p.txid.Some? && tokens(p.txid.value).Some? then p.(status := Confirmed) else p
  }

  /** A pass that only advances rows leaves every withdrawn total as it was. */
  lemma {:induction false} AdvancedKeepsWithdrawn(ps: seq<Payout>, ps': seq<Payout>, a: Addr, t: Asset)
    requires |ps| == |ps'| && forall i :: 0 <= i < |ps| ==> Advanced(ps[i], ps'[i])
    ensures Withdrawn(ps', a, t) == Withdrawn(ps, a, t)
    decreases |ps|
  {
    if ps != [] {
      var n := |ps| - 1;
      AdvancedKeepsWithdrawn(ps[..n], ps'[..n], a, t);
    }
  }

  /**
   * `retryWithdrawalFLO`, with `send(i)` the broadcast result for row `i`:
   * each queued payout whose broadcast produced an id starts waiting for
   * confirmation; every other row is unchanged.
   */
  method RetryWithdrawalFLO(m: Market, send: nat -> Option<Txid>)
    modifies m`outputFLO
    ensures |m.outputFLO| == |old(m.outputFLO)|
    ensures forall i :: 0 <= i < |m.outputFLO| ==> m.outputFLO[i] == Retry(old(m.outputFLO)[i], send(i))
  {
    var i := 0;
    while i < |m.outputFLO|
      invariant 0 <= i <= |m.outputFLO| == |old(m.outputFLO)|
      invariant forall j :: 0 <= j < i ==> m.outputFLO[j] == Retry(old(m.outputFLO)[j], send(j))
      invariant forall j :: i <= j < |m.outputFLO| ==> m.outputFLO[j] == old(m.outputFLO)[j]
    {
      if m.outputFLO[i].status == Queued {
        m.outputFLO := m.outputFLO[i := Retry(m.outputFLO[i], send(i))];
      }
      i := i + 1;
    }
  }

  /** `retryWithdrawalToken`: `RetryWithdrawalFLO` on OutputToken. */
  method RetryWithdrawalToken(m: Market, send: nat -> Option<Txid>)
    modifies m`outputToken
    ensures |m.outputToken| == |old(m.outputToken)|
    ensures forall i :: 0 <= i < |m.outputToken| ==> m.outputToken[i] == Retry(old(m.outputToken)[i], send(i))
  {
    var i := 0;
    while i < |m.outputToken|
      invariant 0 <= i <= |m.outputToken| == |old(m.outputToken)|
      invariant forall j :: 0 <= j < i ==> m.outputToken[j] == Retry(old(m.outputToken)[j], send(j))
      invariant forall j :: i <= j < |m.outputToken| ==> m.outputToken[j] == old(m.outputToken)[j]
    {
      if m.outputToken[i].status == Queued {
        m.outputToken := m.outputToken[i := Retry(m.outputToken[i], send(i))];
      }
      i := i + 1;
    }
  }

  /**
   * `confirmWithdrawalFLO`: each waiting FLO payout whose transaction is in
   * a block and confirmed is done; every other row is unchanged.
   */
  method ConfirmWithdrawalFLO(m: Market, chain: Txid -> Option<FloTx>)
    modifies m`outputFLO
    ensures |m.outputFLO| == |old(m.outputFLO)|
    ensures forall i :: 0 <= i < |m.outputFLO| ==> m.outputFLO[i] == ConfirmFlo(old(m.outputFLO)[i], chain)
  {
    var i := 0;
    while i < |m.outputFLO|
      invariant 0 <= i <= |m.outputFLO| == |old(m.outputFLO)|
      invariant forall j :: 0 <= j < i ==> m.outputFLO[j] == ConfirmFlo(old(m.outputFLO)[j], chain)
      invariant forall j :: i <= j < |m.outputFLO| ==> m.outputFLO[j] == old(m.outputFLO)[j]
    {
      var p := m.outputFLO[i];
      if p.status == WaitingConfirmation && p.txid.Some? {
        var tx := chain(p.txid.value);
        if tx.Some? && tx.value.blockheight != 0 && tx.value.confirmations != 0 {
          m.outputFLO := m.outputFLO[i := p.(status := Confirmed)];
        }
      }
      i := i + 1;
    }
  }

  /**
   * `confirmWithdrawalToken`: each waiting token payout whose transaction
   * the token layer returns is done; every other row is unchanged.
   */
  method ConfirmWithdrawalToken(m: Market, tokens: Txid -> Option<TokenTx>)
    modifies m`outputToken
    ensures |m.outputToken| == |old(m.outputToken)|
    ensures forall i :: 0 <= i < |m.outputToken| ==> m.outputToken[i] == ConfirmToken(old(m.outputToken)[i], tokens)
  {
    var i := 0;
    while i < |m.outputToken|
      invariant 0 <= i <= |m.outputToken| == |old(m.outputToken)|
      invariant forall j :: 0 <= j < i ==> m.outputToken[j] == ConfirmToken(old(m.outputToken)[j], tokens)
      invariant forall j :: i <= j < |m.outputToken| ==> m.outputToken[j] == old(m.outputToken)[j]
    {
      var p := m.outputToken[i];
      if p.status == WaitingConfirmation && p.txid.Some? && tokens(p.txid.value).Some? {
        m.outputToken := m.outputToken[i := p.(status := Confirmed)];
      }
      i := i + 1;
    }
  }
}
