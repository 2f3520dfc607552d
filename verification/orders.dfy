/**
 * Order placement and cancellation: argument validation, the funds
 * reservation check, the sell-quota (sell chips) requirement, and deletion
 * of an order by its owner. Locks are not stored: they are recomputed from
 * the open orders, so inserting an order reserves funds and deleting it
 * releases them.
 */
module Orders {
  import opened Base
  import opened Ledger
  import opened Store
  import opened Js

  /** The first argument an order placement rejects, checked before the store is read. */
  function ValidateOrder(cfg: Config, floID: Addr, asset: Asset, quantity: int, price: int): (r: Option<Error>)
    ensures r == None <==> cfg.validAddr(floID) && quantity > 0 && price > 0 && asset in cfg.assets
    ensures r != None ==> r.value in {InvalidFloID, InvalidQuantity, InvalidPrice, InvalidAsset}
  {
    if !cfg.validAddr(floID) then Some(InvalidFloID)
    else if quantity <= 0 then Some(InvalidQuantity)
    else if price <= 0 then Some(InvalidPrice)
    else if asset !in cfg.assets then Some(InvalidAsset)
    else None
  }

  // ---------------------------------------------------------------------
  // Sell chips
  // ---------------------------------------------------------------------

  /** `IFNULL(SUM(quantity), 0)` over the account's SellChips rows for the asset. */
  function ChipsOf(grants: seq<ChipGrant>, a: Addr, t: Asset): nat {
    if grants == [] then 0
    else
      var g := grants[|grants| - 1];
      ChipsOf(grants[..|grants| - 1], a, t) + (if g.floID == a && g.asset == t then g.quantity else 0)
  }

  /**
   * `checkSellRequirement` as its body evidently means it: the account's sell
   * chips for the asset must strictly exceed what its open sell orders of
   * that asset already lock plus the new quantity.
   */
  predicate SellRequirement(m: Market, a: Addr, t: Asset, quantity: int)
    reads m
  {
    ChipsOf(m.sellChips, a, t) > Reserved(m.sellOrders, Sell, a, t) + quantity
  }

  /**
   * An order placed after the requirement passed leaves the account's locked
   * sell quantity of that asset strictly below its sell chips.
   */
  lemma SellQuotaBound(grants: seq<ChipGrant>, sells: seq<Order>, o: Order)
    requires ChipsOf(grants, o.floID, o.asset) > Reserved(sells, Sell, o.floID, o.asset) + o.quantity
    ensures Reserved(sells + [o], Sell, o.floID, o.asset) < ChipsOf(grants, o.floID, o.asset)
  {
    ReservedAppend(sells, o, Sell, o.floID, o.asset);
  }

  /**
   * `checkSellRequirement` as written and as `addSellOrder` calls it: the
   * sums are read as `result[0].total_chips` and `result[1].locked`, which
   * are properties of each query's row array rather than of its first row,
   * and the call passes no quantity.
   */
  predicate SellRequirementAsWritten(m: Market, a: Addr, t: Asset)
    reads m
  {
    var result := [Rows([map["total_chips" := ChipsOf(m.sellChips, a, t)]]),
                   Rows([map["locked" := Reserved(m.sellOrders, Sell, a, t)]])];
    var total := Prop(result[0], "total_chips");
    var locked := Prop(result[1], "locked");
    var quantity := Undefined;
    Greater(total, Plus(locked, quantity))
  }

  /** As written, the requirement rejects every sell order, even one the quota clearly allows. */
  lemma SellRequirementAsWrittenRejects(m: Market, a: Addr, t: Asset, quantity: int)
    requires SellRequirement(m, a, t, quantity)
    ensures !SellRequirementAsWritten(m, a, t)
  {
    var rows := Rows([map["total_chips" := ChipsOf(m.sellChips, a, t)]]);
    assert Prop(rows, "total_chips") == Undefined;
  }

  // ---------------------------------------------------------------------
  // Placement
  // ---------------------------------------------------------------------

  /**
   * `addSellOrder`, with the sell requirement checked on the new quantity:
   * on success exactly one sell order is appended with the next id and no
   * balance moves; on any rejection nothing changes.
   */
  method AddSellOrder(m: Market, floID: Addr, asset: Asset, quantity: int, minPrice: int) returns (r: Result<()>)
    requires m.Valid()
    modifies m`sellOrders, m`nextSellId, m`buyOrders, m`nextBuyId
    ensures m.Valid()
    ensures m.buyOrders == old(m.buyOrders) && m.nextBuyId == old(m.nextBuyId)
    ensures ValidateOrder(m.cfg, floID, asset, quantity, minPrice).Some? ==>
      r == Err(ValidateOrder(m.cfg, floID, asset, quantity, minPrice).value)
    ensures ValidateOrder(m.cfg, floID, asset, quantity, minPrice) == None && old(m.CheckAvailable(floID, asset, quantity)) != Available ==>
      r == Err(CheckError(old(m.CheckAvailable(floID, asset, quantity)), asset))
    ensures r.Ok? <==>
      && ValidateOrder(m.cfg, floID, asset, quantity, minPrice) == None
      && old(m.CheckAvailable(floID, asset, quantity)) == Available
      && old(SellRequirement(m, floID, asset, quantity))
    ensures
      && ValidateOrder(m.cfg, floID, asset, quantity, minPrice) == None
      && old(m.CheckAvailable(floID, asset, quantity)) == Available
      && !old(SellRequirement(m, floID, asset, quantity))
      ==> r == Err(InsufficientSellChips(asset))
    ensures r.Ok? ==> (quantity > 0 && minPrice > 0 && m.nextSellId == old(m.nextSellId) + 1 &&
      m.sellOrders == old(m.sellOrders) + [Order(old(m.nextSellId), floID, asset, quantity, minPrice)])
    ensures r.Err? ==> m.sellOrders == old(m.sellOrders) && m.nextSellId == old(m.nextSellId)
  {
    var invalid := ValidateOrder(m.cfg, floID, asset, quantity, minPrice);
    if invalid.Some? {
      return Err(invalid.value);
    }
    var verdict := m.CheckAvailable(floID, asset, quantity);
    if verdict != Available {
      return Err(CheckError(verdict, asset));
    }
    if !SellRequirement(m, floID, asset, quantity) {
      return Err(InsufficientSellChips(asset));
    }
    var o := Order(m.nextSellId, floID, asset, quantity, minPrice);
    SellOrderKeepsSolvent(m.balances, m.cfg.currency, m.sellOrders, m.buyOrders, o);
    InsertOrder(m, Sell, o);
    return Ok(());
  }

  /**
   * `INSERT INTO <table>`: the row takes the next id of its table, which then
   * moves on; the other table stays as it was.
   */
  method InsertOrder(m: Market, side: Side, o: Order)
    requires m.Valid()
    requires o.id == (if side == Sell then m.nextSellId else m.nextBuyId)
    requires side == Sell ==> Solvent(m.balances, m.cfg.currency, m.sellOrders + [o], m.buyOrders)
    requires side == Buy ==> Solvent(m.balances, m.cfg.currency, m.sellOrders, m.buyOrders + [o])
    modifies m`sellOrders, m`nextSellId, m`buyOrders, m`nextBuyId
    ensures m.Valid()
    ensures Table(m, side) == old(Table(m, side)) + [o]
    ensures side == Sell ==> m.nextSellId == old(m.nextSellId) + 1 && m.buyOrders == old(m.buyOrders) && m.nextBuyId == old(m.nextBuyId)
    ensures side == Buy ==> m.nextBuyId == old(m.nextBuyId) + 1 && m.sellOrders == old(m.sellOrders) && m.nextSellId == old(m.nextSellId)
  {
    if side == Sell {
      IdsAppend(m.sellOrders, m.nextSellId, o);
      m.sellOrders := m.sellOrders + [o];
      m.nextSellId := m.nextSellId + 1;
    } else {
      IdsAppend(m.buyOrders, m.nextBuyId, o);
      m.buyOrders := m.buyOrders + [o];
      m.nextBuyId := m.nextBuyId + 1;
    }
  }

  /**
   * `addBuyOrder`: the buyer must have quantity*maxPrice of the base currency
   * available; on success exactly one buy order is appended and no balance
   * moves; on any rejection nothing changes.
   */
  method AddBuyOrder(m: Market, floID: Addr, asset: Asset, quantity: int, maxPrice: int) returns (r: Result<()>)
    requires m.Valid()
    modifies m`sellOrders, m`nextSellId, m`buyOrders, m`nextBuyId
    ensures m.Valid()
    ensures m.sellOrders == old(m.sellOrders) && m.nextSellId == old(m.nextSellId)
    ensures ValidateOrder(m.cfg, floID, asset, quantity, maxPrice).Some? ==>
      r == Err(ValidateOrder(m.cfg, floID, asset, quantity, maxPrice).value)
    ensures r.Ok? <==>
      && ValidateOrder(m.cfg, floID, asset, quantity, maxPrice) == None
      && old(m.CheckAvailable(floID, m.cfg.currency, Cost(quantity, maxPrice))) == Available
    ensures ValidateOrder(m.cfg, floID, asset, quantity, maxPrice) == None && !r.Ok? ==>
      r == Err(CheckError(old(m.CheckAvailable(floID, m.cfg.currency, Cost(quantity, maxPrice))), m.cfg.currency))
    ensures r.Ok? ==> (quantity > 0 && maxPrice > 0 && m.nextBuyId == old(m.nextBuyId) + 1 &&
      m.buyOrders == old(m.buyOrders) + [Order(old(m.nextBuyId), floID, asset, quantity, maxPrice)])
    ensures r.Err? ==> m.buyOrders == old(m.buyOrders) && m.nextBuyId == old(m.nextBuyId)
  {
    var invalid := ValidateOrder(m.cfg, floID, asset, quantity, maxPrice);
    if invalid.Some? {
      return Err(invalid.value);
    }
    var verdict := m.CheckAvailable(floID, m.cfg.currency, Cost(quantity, maxPrice));
    if verdict != Available {
      return Err(CheckError(verdict, m.cfg.currency));
    }
    var o := Order(m.nextBuyId, floID, asset, quantity, maxPrice);
    BuyOrderKeepsSolvent(m.balances, m.cfg.currency, m.sellOrders, m.buyOrders, o);
    InsertOrder(m, Buy, o);
    return Ok(());
  }

  // ---------------------------------------------------------------------
  // Cancellation
  // ---------------------------------------------------------------------

  /** The order table named by the request's `type`: "buy" or "sell". */
  function OrderSide(kind: string): Option<Side> {
    if kind == "buy" then Some(Buy) else if kind == "sell" then Some(Sell) else None
  }

  /** `SELECT ... WHERE id=?`: the position of the row with that id, if any. */
  function FindOrder(os: seq<Order>, id: nat): (r: Option<nat>)
    ensures r.Some? ==> r.value < |os| && os[r.value].id == id
    ensures r.None? ==> forall i :: 0 <= i < |os| ==> os[i].id != id
  {
    if os == [] then None
    else if os[0].id == id then Some(0)
    else match FindOrder(os[1..], id)
      case None => None
      case Some(k) => Some(k + 1)
  }

  /** Deleting the row at `i` leaves no row with its id when ids are ascending. */
  lemma RemoveDropsId(os: seq<Order>, next: nat, i: nat)
    requires IdsBelow(os, next) && i < |os|
    ensures IdsBelow(Remove(os, i), next)
    ensures forall j :: 0 <= j < |Remove(os, i)| ==> Remove(os, i)[j].id != os[i].id
  {
    var r := Remove(os, i);
    forall j | 0 <= j < |r| ensures r[j].id != os[i].id {
      if j < i { assert r[j] == os[j]; } else { assert r[j] == os[j + 1]; }
    }
  }

  /** The order table of a side. */
  function Table(m: Market, side: Side): seq<Order>
    reads m
  {
    if side == Sell then m.sellOrders else m.buyOrders
  }

  /** `DELETE FROM <table> WHERE id=?` on the row at `i`: the other table stays as it was. */
  method DeleteOrder(m: Market, side: Side, i: nat)
    requires m.Valid() && i < |Table(m, side)|
    modifies m`sellOrders, m`buyOrders
    ensures m.Valid()
    ensures Table(m, side) == Remove(old(Table(m, side)), i)
    ensures side == Sell ==> m.buyOrders == old(m.buyOrders)
    ensures side == Buy ==> m.sellOrders == old(m.sellOrders)
    ensures forall j :: 0 <= j < |Table(m, side)| ==> Table(m, side)[j].id != old(Table(m, side))[i].id
  {
    RemovalKeepsSolvent(m.balances, m.cfg.currency, m.sellOrders, m.buyOrders, side, i);
    if side == Sell {
      RemoveDropsId(m.sellOrders, m.nextSellId, i);
      m.sellOrders := Remove(m.sellOrders, i);
    } else {
      RemoveDropsId(m.buyOrders, m.nextBuyId, i);
      m.buyOrders := Remove(m.buyOrders, i);
    }
  }

  /**
   * `cancelOrder`: only the owner of an existing order may delete it. On
   * success exactly that row leaves its table; every other order and every
   * balance stays as it was; on any rejection nothing changes.
   */
  method CancelOrder(m: Market, kind: string, id: nat, floID: Addr) returns (r: Result<()>)
    requires m.Valid()
    modifies m`sellOrders, m`buyOrders
    ensures m.Valid()
    ensures !m.cfg.validAddr(floID) ==> r == Err(InvalidFloID)
    ensures m.cfg.validAddr(floID) && OrderSide(kind).None? ==> r == Err(InvalidOrderType)
    ensures r.Ok? <==>
      && m.cfg.validAddr(floID) && OrderSide(kind).Some?
      && exists i :: 0 <= i < |old(Table(m, OrderSide(kind).value))|
           && old(Table(m, OrderSide(kind).value))[i].id == id && old(Table(m, OrderSide(kind).value))[i].floID == floID
    ensures r == Err(NotOrderOwner) <==>
      && m.cfg.validAddr(floID) && OrderSide(kind).Some?
      && (exists i :: 0 <= i < |old(Table(m, OrderSide(kind).value))| && old(Table(m, OrderSide(kind).value))[i].id == id)
      && forall i :: 0 <= i < |old(Table(m, OrderSide(kind).value))| && old(Table(m, OrderSide(kind).value))[i].id == id ==>
           old(Table(m, OrderSide(kind).value))[i].floID != floID
    ensures r == Err(OrderNotFound) <==>
      && m.cfg.validAddr(floID) && OrderSide(kind).Some?
      && forall i :: 0 <= i < |old(Table(m, OrderSide(kind).value))| ==> old(Table(m, OrderSide(kind).value))[i].id != id
    ensures r.Ok? ==>
      exists i :: 0 <= i < |old(Table(m, OrderSide(kind).value))| && old(Table(m, OrderSide(kind).value))[i].id == id
        && Table(m, OrderSide(kind).value) == Remove(old(Table(m, OrderSide(kind).value)), i)
    ensures r.Ok? ==> forall j :: 0 <= j < |Table(m, OrderSide(kind).value)| ==> Table(m, OrderSide(kind).value)[j].id != id
    ensures r.Ok? && OrderSide(kind) == Some(Sell) ==> m.buyOrders == old(m.buyOrders)
    ensures r.Ok? && OrderSide(kind) == Some(Buy) ==> m.sellOrders == old(m.sellOrders)
    ensures r.Err? ==> m.sellOrders == old(m.sellOrders) && m.buyOrders == old(m.buyOrders)
  {
    if !m.cfg.validAddr(floID) {
      return Err(InvalidFloID);
    }
    var side := OrderSide(kind);
    if side.None? {
      return Err(InvalidOrderType);
    }
    var os := Table(m, side.value);
    var found := FindOrder(os, id);
    if found.None? {
      return Err(OrderNotFound);
    }
    var i := found.value;
    if os[i].floID != floID {
      // ids are unique, so no other row with this id could belong to the caller
      forall j | 0 <= j < |os| && os[j].id == id ensures j == i {
      }
      return Err(NotOrderOwner);
    }
    DeleteOrder(m, side.value, i);
    return Ok(());
  }
}
