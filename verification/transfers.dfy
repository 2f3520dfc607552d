/**
 * `transferToken`: one sender pays many receivers in one all-or-nothing
 * step. Every receiver is validated first; the sender is debited once for
 * the sum, each receiver is credited its amount, Vault rows are written when
 * the sender distributes the token, and one transfer record is kept under a
 * prefixed id.
 */
module Transfers {
  import opened Base
  import opened Ledger
  import opened Store
  import opened Quota

  /** The receivers whose address does not validate, in request order. */
  function InvalidIDs(cfg: Config, rs: seq<(Addr, nat)>): (ids: seq<Addr>)
    ensures ids == [] <==> forall k :: 0 <= k < |rs| ==> cfg.validAddr(rs[k].0)
    ensures forall j :: 0 <= j < |ids| ==> !cfg.validAddr(ids[j])
    ensures forall k :: 0 <= k < |rs| && !cfg.validAddr(rs[k].0) ==> rs[k].0 in ids
  {
    if rs == [] then []
    else
      var last := rs[|rs| - 1];
      InvalidIDs(cfg, rs[..|rs| - 1]) + (if cfg.validAddr(last.0) then [] else [last.0])
  }

  /** The sum of every receiver's amount: what the sender pays. */
  function Amounts(rs: seq<(Addr, nat)>): nat {
    if rs == [] then 0 else Amounts(rs[..|rs| - 1]) + rs[|rs| - 1].1
  }

  /** What the request pays account `a`. */
  function Received(rs: seq<(Addr, nat)>, a: Addr): nat {
    if rs == [] then 0
    else Received(rs[..|rs| - 1], a) + (if rs[|rs| - 1].0 == a then rs[|rs| - 1].1 else 0)
  }

  /** The ledger after each receiver has been credited its amount of `t`, in request order. */
  function Credits(b: Balances, rs: seq<(Addr, nat)>, t: Asset): Balances {
    if rs == [] then b
    else
      var last := rs[|rs| - 1];
      Credit(Credits(b, rs[..|rs| - 1], t), last.0, t, last.1)
  }

  /** One Vault row per receiver, for the amount it was credited. */
  function VaultRows(rs: seq<(Addr, nat)>, t: Asset): (vs: seq<VaultRow>)
    ensures |vs| == |rs|
    ensures forall k :: 0 <= k < |rs| ==> vs[k] == VaultRow(rs[k].0, t, rs[k].1)
  {
    if rs == [] then [] else VaultRows(rs[..|rs| - 1], t) + [VaultRow(rs[|rs| - 1].0, t, rs[|rs| - 1].1)]
  }

  /** Each account gains in `t` exactly what the request pays it; no other balance moves. */
  lemma {:induction false} CreditsTotal(b: Balances, rs: seq<(Addr, nat)>, t: Asset, a: Addr, t': Asset)
    ensures TotalOf(Credits(b, rs, t), a, t') == TotalOf(b, a, t') + (if t' == t then Received(rs, a) else 0)
    decreases |rs|
  {
    if rs != [] {
      CreditsTotal(b, rs[..|rs| - 1], t, a, t');
    }
  }

  /** The credits raise the supply of `t` by the sum of the amounts and no other supply. */
  lemma {:induction false} CreditsSupply(b: Balances, rs: seq<(Addr, nat)>, t: Asset, t': Asset)
    ensures Supply(Credits(b, rs, t), t') == Supply(b, t') + (if t' == t then Amounts(rs) else 0)
    decreases |rs|
  {
    if rs != [] {
      var last := rs[|rs| - 1];
      CreditsSupply(b, rs[..|rs| - 1], t, t');
      SupplyCredit(Credits(b, rs[..|rs| - 1], t), last.0, t, last.1, t');
    }
  }

  /** The body hashed for the transfer id. */
  function Body(sender: Addr, rs: seq<(Addr, nat)>, token: Asset, time: int): TransferBody {
    TransferBody(sender, rs, token, Amounts(rs), time)
  }

  /** The transfer id: the transfer prefix followed by the digest of the body. */
  function TransferId(cfg: Config, body: TransferBody): (txid: Txid)
    ensures StartsWith(txid, cfg.transferPrefix)
  {
    assert (cfg.transferPrefix + cfg.digest(body))[..|cfg.transferPrefix|] == cfg.transferPrefix;
    cfg.transferPrefix + cfg.digest(body)
  }

  /**
   * What debiting the sender the sum and crediting every receiver does to
   * the ledger: each balance moves by what the request pays it less what it
   * pays, and the supply of every asset is conserved.
   */
  lemma TransferEffect(b: Balances, sender: Addr, rs: seq<(Addr, nat)>, token: Asset)
    requires Amounts(rs) <= TotalOf(b, sender, token)
    ensures forall a: Addr, t: Asset ::
      TotalOf(Credits(Debit(b, sender, token, Amounts(rs)), rs, token), a, t)
        + (if a == sender && t == token then Amounts(rs) else 0)
      == TotalOf(b, a, t) + (if t == token then Received(rs, a) else 0)
    ensures forall t: Asset :: Supply(Credits(Debit(b, sender, token, Amounts(rs)), rs, token), t) == Supply(b, t)
  {
    var d := Debit(b, sender, token, Amounts(rs));
    forall a: Addr, t: Asset
      ensures TotalOf(Credits(d, rs, token), a, t) + (if a == sender && t == token then Amounts(rs) else 0)
        == TotalOf(b, a, t) + (if t == token then Received(rs, a) else 0)
    {
      CreditsTotal(d, rs, token, a, t);
    }
    forall t: Asset
      ensures Supply(Credits(d, rs, token), t) == Supply(b, t)
    {
      CreditsSupply(d, rs, token, t);
      SupplyDebit(b, sender, token, Amounts(rs), t);
    }
  }

  /**
   * The loop over the receivers that collects every invalid address and,
   * while none is found, adds up the amounts. It reads nothing else.
   */
  method ScanReceivers(cfg: Config, receivers: seq<(Addr, nat)>) returns (invalidIDs: seq<Addr>, totalAmount: nat)
    ensures invalidIDs == InvalidIDs(cfg, receivers)
    ensures invalidIDs == [] ==> totalAmount == Amounts(receivers)
  {
    invalidIDs, totalAmount := [], 0;
    var i := 0;
    while i < |receivers|
      invariant 0 <= i <= |receivers|
      invariant invalidIDs == InvalidIDs(cfg, receivers[..i])
      invariant invalidIDs == [] ==> totalAmount == Amounts(receivers[..i])
    {
      assert receivers[..i + 1][..i] == receivers[..i];
      if !cfg.validAddr(receivers[i].0) {
        invalidIDs := invalidIDs + [receivers[i].0];
      } else {
        totalAmount := totalAmount + receivers[i].1;
      }
      i := i + 1;
    }
    assert receivers[..i] == receivers;
  }

  /** The loop that credits every receiver its amount of `token` (`updateBalance.add`). */
  method CreditReceivers(m: Market, receivers: seq<(Addr, nat)>, token: Asset)
    requires Solvent(m.balances, m.cfg.currency, m.sellOrders, m.buyOrders)
    modifies m`balances
    ensures m.balances == Credits(old(m.balances), receivers, token)
    ensures Solvent(m.balances, m.cfg.currency, m.sellOrders, m.buyOrders)
  {
    var i := 0;
    while i < |receivers|
      invariant 0 <= i <= |receivers|
      invariant m.balances == Credits(old(m.balances), receivers[..i], token)
      invariant Solvent(m.balances, m.cfg.currency, m.sellOrders, m.buyOrders)
    {
      assert receivers[..i + 1][..i] == receivers[..i];
      var b := m.balances;
      m.balances := Credit(m.balances, receivers[i].0, token, receivers[i].1);
      GrowthKeepsSolvent(b, m.balances, m.cfg.currency, m.sellOrders, m.buyOrders);
      i := i + 1;
    }
    assert receivers[..i] == receivers;
  }

  /** The loop that writes one Vault row per receiver. */
  method AddVaultRows(m: Market, receivers: seq<(Addr, nat)>, token: Asset)
    modifies m`vault
    ensures m.vault == old(m.vault) + VaultRows(receivers, token)
  {
    var i := 0;
    assert receivers[..i] == [];
    while i < |receivers|
      invariant 0 <= i <= |receivers|
      invariant m.vault == old(m.vault) + VaultRows(receivers[..i], token)
    {
      assert receivers[..i + 1][..i] == receivers[..i];
      m.vault := m.vault + [VaultRow(receivers[i].0, token, receivers[i].1)];
      i := i + 1;
    }
    assert receivers[..i] == receivers;
  }

  /**
   * `transferToken`, with `time` the clock reading. On success the sender
   * loses exactly the sum of the amounts, each receiver gains what it is
   * paid, the token's supply is unchanged, one transfer record is appended
   * and Vault rows are appended exactly when the sender distributes the
   * token. A bad sender, an unknown token, any invalid receiver (all of them
   * are reported) or a failed availability check rejects the request and
   * changes nothing.
   */
  method Transfer(m: Market, sender: Addr, receivers: seq<(Addr, nat)>, token: Asset, time: int)
    returns (r: Result<Txid>)
    requires m.Valid()
    modifies m`balances, m`vault, m`transfers
    ensures m.Valid()
    ensures !m.cfg.validAddr(sender) ==> r == Err(InvalidSender)
    ensures m.cfg.validAddr(sender) && !KnownToken(m.cfg, token) ==> r == Err(InvalidToken)
    ensures m.cfg.validAddr(sender) && KnownToken(m.cfg, token) && InvalidIDs(m.cfg, receivers) != [] ==>
      r == Err(InvalidReceivers(InvalidIDs(m.cfg, receivers)))
    ensures r.Ok? <==>
      && m.cfg.validAddr(sender) && KnownToken(m.cfg, token) && InvalidIDs(m.cfg, receivers) == []
      && old(m.CheckAvailable(sender, token, Amounts(receivers))) == Available
    ensures r.Ok? ==> forall a: Addr, t: Asset ::
      TotalOf(m.balances, a, t) + (if a == sender && t == token then Amounts(receivers) else 0)
        == old(TotalOf(m.balances, a, t)) + (if t == token then Received(receivers, a) else 0)
    ensures r.Ok? ==> forall t: Asset :: Supply(m.balances, t) == old(Supply(m.balances, t))
    ensures r.Ok? ==>
      && StartsWith(r.value, m.cfg.transferPrefix)
      && r.value == TransferId(m.cfg, Body(sender, receivers, token, time))
      && m.transfers == old(m.transfers) + [TransferRecord(sender, receivers, token, Amounts(receivers), time, r.value)]
    ensures r.Ok? ==>
      m.vault == old(m.vault) + (if IsDistributor(m, sender, token) then VaultRows(receivers, token) else [])
    ensures r.Err? ==> m.balances == old(m.balances) && m.vault == old(m.vault) && m.transfers == old(m.transfers)
  {
    if !m.cfg.validAddr(sender) {
      return Err(InvalidSender);
    }
    if !KnownToken(m.cfg, token) {
      return Err(InvalidToken);
    }
    var invalidIDs, totalAmount := ScanReceivers(m.cfg, receivers);
    if invalidIDs != [] {
      return Err(InvalidReceivers(invalidIDs));
    }
    var verdict := m.CheckAvailable(sender, token, totalAmount);
    if verdict != Available {
      return Err(CheckError(verdict, token));
    }
    TransferEffect(m.balances, sender, receivers, token);
    DebitKeepsSolvent(m.balances, m.cfg.currency, m.sellOrders, m.buyOrders, sender, token, totalAmount);
    m.balances := Debit(m.balances, sender, token, totalAmount);
    CreditReceivers(m, receivers, token);
    if IsDistributor(m, sender, token) {
      AddVaultRows(m, receivers, token);
    }
    var txid := TransferId(m.cfg, Body(sender, receivers, token, time));
    m.transfers := m.transfers + [TransferRecord(sender, receivers, token, totalAmount, time, txid)];
    return Ok(txid);
  }

  /**
   * `transferToken` as written: `checkDistributor` returns no promise, so
   * calling `.then` on its result throws a TypeError after the availability
   * check has passed, and no transfer ever commits. Every request the
   * corrected `Transfer` accepts is rejected here.
   */
  function TransferAsWritten(m: Market, sender: Addr, receivers: seq<(Addr, nat)>, token: Asset): (r: Result<Txid>)
    reads m
    ensures r.Err?
    ensures r == Err(TypeError) <==>
      && m.cfg.validAddr(sender) && KnownToken(m.cfg, token) && InvalidIDs(m.cfg, receivers) == []
      && m.CheckAvailable(sender, token, Amounts(receivers)) == Available
  {
    if !m.cfg.validAddr(sender) then Err(InvalidSender)
    else if !KnownToken(m.cfg, token) then Err(InvalidToken)
    else if InvalidIDs(m.cfg, receivers) != [] then Err(InvalidReceivers(InvalidIDs(m.cfg, receivers)))
    else
      var verdict := m.CheckAvailable(sender, token, Amounts(receivers));
      if verdict != Available then Err(CheckError(verdict, token))
      else Err(TypeError)
  }
}
