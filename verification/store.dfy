/**
 * The market's store: one field per table the settlement logic reads or
 * writes, the invariant every operation keeps, and the read-only balance
 * view and availability check (`getAssetBalance` and its `check`).
 */
module Store {
  import opened Base
  import opened Ledger

  /** Status of a deposit claim (InputFLO/InputToken): PENDING, REJECTED or SUCCESS. */
  datatype Status = Pending | Rejected | Success

  /**
   * Status of a withdrawal (OutputFLO/OutputToken): `Queued` is the tables'
   * PENDING (not yet broadcast), `Confirmed` their SUCCESS.
   */
  datatype PayoutStatus = Queued | WaitingConfirmation | Confirmed

  /**
   * An InputFLO or InputToken row. `token` is NULL until a token claim is
   * credited; `amount` is 0 until a claim is credited.
   */
  datatype Claim = Claim(txid: Txid, floID: Addr, status: Status, token: Option<Asset>, amount: nat)

  /** An OutputFLO or OutputToken row; OutputFLO rows carry the token FLO. */
  datatype Payout = Payout(floID: Addr, token: Asset, amount: nat, txid: Option<Txid>, status: PayoutStatus)

  /** A Vault row: an amount received from a distributor of the asset. */
  datatype VaultRow = VaultRow(floID: Addr, asset: Asset, quantity: nat)

  /** A SellChips row: sell quota granted to an account for an asset. */
  datatype ChipGrant = ChipGrant(floID: Addr, asset: Asset, quantity: nat)

  /** A TransferTransactions row. */
  datatype TransferRecord = TransferRecord(
    sender: Addr, receivers: seq<(Addr, nat)>, token: Asset, totalAmount: nat, time: int, txid: Txid)

  /** A TradeTransactions row (written by the matching engine, only read here). */
  datatype TradeRecord = TradeRecord(txid: Txid, seller: Addr, buyer: Addr, asset: Asset, quantity: nat, unitValue: nat)

  /** Order ids grow with their position and stay below the next id to hand out. */
  ghost predicate IdsBelow(os: seq<Order>, next: nat) {
    && (forall i, j :: 0 <= i < j < |os| ==> os[i].id < os[j].id)
    && (forall i :: 0 <= i < |os| ==> os[i].id < next)
  }

  /** Appending an order with the next id keeps ids ascending and below the new next id. */
  lemma IdsAppend(os: seq<Order>, next: nat, o: Order)
    requires IdsBelow(os, next) && o.id == next
    ensures IdsBelow(os + [o], next + 1)
  {
  }

  /** At most one claim per (txid, floID). */
  ghost predicate UniqueClaims(cs: seq<Claim>) {
    forall i, j :: 0 <= i < j < |cs| ==> cs[i].txid != cs[j].txid || cs[i].floID != cs[j].floID
  }

  /** InputFLO has no token column: its rows always read NULL there. */
  ghost predicate NoTokenColumn(cs: seq<Claim>) {
    forall i :: 0 <= i < |cs| ==> cs[i].token == None
  }

  class Market {
    const cfg: Config
    var balances: Balances
    var sellOrders: seq<Order>
    var buyOrders: seq<Order>
    var nextSellId: nat
    var nextBuyId: nat
    var sellChips: seq<ChipGrant>
    var tagList: set<Tag>
    var userTags: set<(Addr, Tag)>
    var distributors: set<(Addr, Asset)>
    var vault: seq<VaultRow>
    var inputFLO: seq<Claim>
    var inputToken: seq<Claim>
    var outputFLO: seq<Payout>
    var outputToken: seq<Payout>
    var transfers: seq<TransferRecord>
    var trades: seq<TradeRecord>

    /**
     * The store's invariant: no net balance is negative, order ids identify
     * rows, each (txid, floID) is claimed at most once per table, and
     * InputFLO rows carry no token.
     */
    ghost predicate Valid()
      reads this
    {
      && Solvent(balances, cfg.currency, sellOrders, buyOrders)
      && IdsBelow(sellOrders, nextSellId)
      && IdsBelow(buyOrders, nextBuyId)
      && UniqueClaims(inputFLO)
      && UniqueClaims(inputToken)
      && NoTokenColumn(inputFLO)
    }

    /** An empty market with the given configuration and known tags. */
    constructor (cfg: Config, tagList: set<Tag>)
      ensures Valid()
      ensures this.cfg == cfg && this.tagList == tagList
      ensures balances == map[] && sellOrders == [] && buyOrders == [] && sellChips == []
      ensures userTags == {} && distributors == {} && vault == []
      ensures inputFLO == [] && inputToken == [] && outputFLO == [] && outputToken == []
      ensures transfers == [] && trades == []
    {
      this.cfg := cfg;
      this.tagList := tagList;
      balances := map[];
      sellOrders, buyOrders := [], [];
      nextSellId, nextBuyId := 0, 0;
      sellChips := [];
      userTags, distributors := {}, {};
      vault := [];
      inputFLO, inputToken := [], [];
      outputFLO, outputToken := [], [];
      transfers, trades := [], [];
    }

    /** `getAssetBalance`: the total, locked and net balance of `a` in `t`. */
    function AssetBalance(a: Addr, t: Asset): (v: BalanceView)
      reads this
      ensures v.total == TotalOf(balances, a, t)
      ensures v.locked == LockedOf(cfg.currency, sellOrders, buyOrders, a, t)
      ensures v.net == v.total - v.locked
      ensures Valid() ==> v.net >= 0
    {
      View(balances, cfg.currency, sellOrders, buyOrders, a, t)
    }

    /**
     * `getAssetBalance.check`: whether `amount` of `t` can be committed by `a`.
     * It reads the store and changes nothing.
     */
    function CheckAvailable(a: Addr, t: Asset, amount: int): (r: Verdict)
      reads this
      ensures r == Available <==>
        amount <= TotalOf(balances, a, t) && LockedOf(cfg.currency, sellOrders, buyOrders, a, t) + amount <= TotalOf(balances, a, t)
      ensures r == Short <==> TotalOf(balances, a, t) < amount
    {
      Check(AssetBalance(a, t), amount)
    }
  }
}
