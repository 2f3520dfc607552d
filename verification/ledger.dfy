/**
 * The account ledger: balances per (account, asset), the amounts locked by
 * open orders, the total/locked/net view of one balance and the three-way
 * availability check that guards every debit and every new order.
 */
module Ledger {
  import opened Base

  /** The UserBalance table: one quantity, in 1e-8 units, per (floID, asset). */
  type Balances = map<(Addr, Asset), nat>

  /** `IFNULL(SUM(quantity), 0)` over the account's row for the asset. */
  function TotalOf(b: Balances, a: Addr, t: Asset): nat {
    if (a, t) in b then b[(a, t)] else 0
  }

  /** Adds `x` to one balance (`updateBalance.add`); no other balance moves. */
  function Credit(b: Balances, a: Addr, t: Asset, x: nat): (r: Balances)
    ensures TotalOf(r, a, t) == TotalOf(b, a, t) + x
    ensures forall a', t' :: (a', t') != (a, t) ==> TotalOf(r, a', t') == TotalOf(b, a', t')
  {
    b[(a, t) := TotalOf(b, a, t) + x]
  }

  /** Takes `x` from one balance (`updateBalance.consume`); callers check availability first. */
  function Debit(b: Balances, a: Addr, t: Asset, x: nat): (r: Balances)
    requires x <= TotalOf(b, a, t)
    ensures TotalOf(r, a, t) + x == TotalOf(b, a, t)
    ensures forall a', t' :: (a', t') != (a, t) ==> TotalOf(r, a', t') == TotalOf(b, a', t')
  {
    b[(a, t) := TotalOf(b, a, t) - x]
  }

  // ---------------------------------------------------------------------
  // Open orders and the funds they lock
  // ---------------------------------------------------------------------

  datatype Side = Sell | Buy

  /**
   * A SellOrder or BuyOrder row; `price` is minPrice for a sell and maxPrice
   * for a buy. The quantity is in 1e-8 units of the asset and the price in
   * 1e-8 units of the base currency per whole unit of the asset.
   */
  datatype Order = Order(id: nat, floID: Addr, asset: Asset, quantity: nat, price: nat)

  /** 1e-8 units per whole unit of an asset. */
  const Unit: nat := 100000000

  /**
   * What a buy order of `quantity` at `price` commits of the base currency,
   * in 1e-8 units: quantity*price rounded down to the nearest 1e-8.
   */
  function Cost(quantity: int, price: int): (c: int)
    ensures c * Unit <= quantity * price < c * Unit + Unit
    ensures quantity >= 0 && price >= 0 ==> c >= 0
  {
    quantity * price / Unit
  }

  /**
   * What one order locks of account `a`'s balance in `t`: a sell order locks
   * its quantity of the asset it sells; a buy order locks quantity*maxPrice of
   * the base currency, whatever asset it buys.
   */
  function Weight(o: Order, side: Side, a: Addr, t: Asset): nat {
    match side
    case Sell => if o.floID == a && o.asset == t then o.quantity else 0
    case Buy => if o.floID == a then Cost(o.quantity, o.price) else 0
  }

  /** The SUM over an order table of what each row locks. */
  function Reserved(os: seq<Order>, side: Side, a: Addr, t: Asset): nat {
    if os == [] then 0 else Reserved(os[..|os| - 1], side, a, t) + Weight(os[|os| - 1], side, a, t)
  }

  /** `os` without its row at index `i` (a DELETE of that row). */
  function Remove(os: seq<Order>, i: nat): (r: seq<Order>)
    requires i < |os|
    ensures |r| == |os| - 1
    ensures forall j :: 0 <= j < i ==> r[j] == os[j]
    ensures forall j :: i <= j < |r| ==> r[j] == os[j + 1]
  {
    os[..i] + os[i + 1..]
  }

  /**
   * The locked part of a balance: buy orders' quantity*maxPrice for the base
   * currency, the account's sell orders of that asset for any other asset.
   */
  function LockedOf(cur: Asset, sells: seq<Order>, buys: seq<Order>, a: Addr, t: Asset): nat {
    if t == cur then Reserved(buys, Buy, a, t) else Reserved(sells, Sell, a, t)
  }

  /** The `{total, locked, net}` object `getAssetBalance` resolves with. */
  datatype BalanceView = BalanceView(total: nat, locked: nat, net: int)

  function View(b: Balances, cur: Asset, sells: seq<Order>, buys: seq<Order>, a: Addr, t: Asset): (v: BalanceView)
    ensures v.total == TotalOf(b, a, t)
    ensures v.locked == LockedOf(cur, sells, buys, a, t)
    ensures v.net == v.total - v.locked
  {
    var total := TotalOf(b, a, t);
    var locked := LockedOf(cur, sells, buys, a, t);
    BalanceView(total, locked, total - locked)
  }

  /** The verdict of `getAssetBalance.check`. */
  datatype Verdict = Available | Short | LockedInOrders

  /**
   * The availability check: short when the total is below the amount, locked
   * when the total would do but the unlocked part would not, available
   * exactly when the amount fits in what no order has locked.
   */
  function Check(v: BalanceView, amount: int): (r: Verdict)
    requires v.net == v.total - v.locked
    ensures r == Available <==> amount <= v.total && v.locked + amount <= v.total
    ensures r == Short <==> v.total < amount
    ensures r == LockedInOrders <==> amount <= v.total < v.locked + amount
  {
    if v.total < amount then Short
    else if v.net < amount then LockedInOrders
    else Available
  }

  /** The rejection a failed check reports for `asset`. */
  function CheckError(r: Verdict, asset: Asset): Error
    requires r != Available
  {
    if r == Short then Insufficient(asset) else InsufficientUnlocked(asset)
  }

  /**
   * No account has more locked in open orders than it holds: every net
   * balance is non-negative.
   */
  ghost predicate Solvent(b: Balances, cur: Asset, sells: seq<Order>, buys: seq<Order>) {
    forall a: Addr, t: Asset :: LockedOf(cur, sells, buys, a, t) <= TotalOf(b, a, t)
  }

  // ---------------------------------------------------------------------
  // Lemmas: locked sums under insertion and deletion of rows
  // ---------------------------------------------------------------------

  lemma {:induction false} ReservedConcat(x: seq<Order>, y: seq<Order>, side: Side, a: Addr, t: Asset)
    ensures Reserved(x + y, side, a, t) == Reserved(x, side, a, t) + Reserved(y, side, a, t)
    decreases |y|
  {
    if y == [] {
      assert x + y == x;
    } else {
      var y' := y[..|y| - 1];
      ReservedConcat(x, y', side, a, t);
      assert (x + y)[..|x + y| - 1] == x + y';
    }
  }

  /** Appending a row adds exactly what that row locks. */
  lemma ReservedAppend(s: seq<Order>, o: Order, side: Side, a: Addr, t: Asset)
    ensures Reserved(s + [o], side, a, t) == Reserved(s, side, a, t) + Weight(o, side, a, t)
  {
    assert (s + [o])[..|s|] == s;
  }

  /** Deleting a row releases exactly what that row locked. */
  lemma ReservedRemove(s: seq<Order>, i: nat, side: Side, a: Addr, t: Asset)
    requires i < |s|
    ensures Reserved(Remove(s, i), side, a, t) + Weight(s[i], side, a, t) == Reserved(s, side, a, t)
  {
    ReservedConcat(s[..i], s[i + 1..], side, a, t);
    ReservedConcat(s[..i], s[i..], side, a, t);
    ReservedConcat([s[i]], s[i + 1..], side, a, t);
    assert s == s[..i] + s[i..];
    assert s[i..] == [s[i]] + s[i + 1..];
    assert [s[i]][..0] == [];
  }

  // ---------------------------------------------------------------------
  // Lemmas: what keeps the ledger solvent
  // ---------------------------------------------------------------------

  /** A sell order that passed the availability check keeps every net balance non-negative. */
  lemma SellOrderKeepsSolvent(b: Balances, cur: Asset, sells: seq<Order>, buys: seq<Order>, o: Order)
    requires Solvent(b, cur, sells, buys)
    requires Check(View(b, cur, sells, buys, o.floID, o.asset), o.quantity) == Available
    ensures Solvent(b, cur, sells + [o], buys)
  {
    forall a: Addr, t: Asset
      ensures LockedOf(cur, sells + [o], buys, a, t) <= TotalOf(b, a, t)
    {
      ReservedAppend(sells, o, Sell, a, t);
    }
  }

  /** A buy order whose quantity*maxPrice passed the currency check keeps the ledger solvent. */
  lemma BuyOrderKeepsSolvent(b: Balances, cur: Asset, sells: seq<Order>, buys: seq<Order>, o: Order)
    requires Solvent(b, cur, sells, buys)
    requires Check(View(b, cur, sells, buys, o.floID, cur), Cost(o.quantity, o.price)) == Available
    ensures Solvent(b, cur, sells, buys + [o])
  {
    forall a: Addr, t: Asset
      ensures LockedOf(cur, sells, buys + [o], a, t) <= TotalOf(b, a, t)
    {
      ReservedAppend(buys, o, Buy, a, t);
    }
  }

  /** Deleting an order of either side never breaks solvency. */
  lemma RemovalKeepsSolvent(b: Balances, cur: Asset, sells: seq<Order>, buys: seq<Order>, side: Side, i: nat)
    requires Solvent(b, cur, sells, buys)
    requires i < |if side == Sell then sells else buys|
    ensures side == Sell ==> Solvent(b, cur, Remove(sells, i), buys)
    ensures side == Buy ==> Solvent(b, cur, sells, Remove(buys, i))
  {
    if side == Sell {
      forall a: Addr, t: Asset
        ensures LockedOf(cur, Remove(sells, i), buys, a, t) <= TotalOf(b, a, t)
      {
        ReservedRemove(sells, i, Sell, a, t);
      }
    } else {
      forall a: Addr, t: Asset
        ensures LockedOf(cur, sells, Remove(buys, i), a, t) <= TotalOf(b, a, t)
      {
        ReservedRemove(buys, i, Buy, a, t);
      }
    }
  }

  /** Consuming an amount that passed the availability check keeps the ledger solvent. */
  lemma DebitKeepsSolvent(b: Balances, cur: Asset, sells: seq<Order>, buys: seq<Order>, a: Addr, t: Asset, x: nat)
    requires Solvent(b, cur, sells, buys)
    requires Check(View(b, cur, sells, buys, a, t), x) == Available
    ensures Solvent(Debit(b, a, t, x), cur, sells, buys)
  {
    var d := Debit(b, a, t, x);
    forall a': Addr, t': Asset
      ensures LockedOf(cur, sells, buys, a', t') <= TotalOf(d, a', t')
    {
    }
  }

  /** Balances that only grew, under the same orders, stay solvent. */
  lemma GrowthKeepsSolvent(b: Balances, b': Balances, cur: Asset, sells: seq<Order>, buys: seq<Order>)
    requires Solvent(b, cur, sells, buys)
    requires forall a: Addr, t: Asset :: TotalOf(b, a, t) <= TotalOf(b', a, t)
    ensures Solvent(b', cur, sells, buys)
  {
    forall a: Addr, t: Asset
      ensures LockedOf(cur, sells, buys, a, t) <= TotalOf(b', a, t)
    {
      assert TotalOf(b, a, t) <= TotalOf(b', a, t);
    }
  }

  /** In a solvent ledger no balance view reports a negative net. */
  lemma SolventNetNonNegative(b: Balances, cur: Asset, sells: seq<Order>, buys: seq<Order>, a: Addr, t: Asset)
    requires Solvent(b, cur, sells, buys)
    ensures View(b, cur, sells, buys, a, t).net >= 0
  {
    assert LockedOf(cur, sells, buys, a, t) <= TotalOf(b, a, t);
  }

  // ---------------------------------------------------------------------
  // The supply of an asset: its balances summed over every account
  // ---------------------------------------------------------------------

  /** What the row at key `k` contributes to the supply of `t`. */
  function Share(b: Balances, k: (Addr, Asset), t: Asset): nat {
    if k in b && k.1 == t then b[k] else 0
  }

  ghost function SumOver(b: Balances, keys: set<(Addr, Asset)>, t: Asset): nat
    decreases keys
  {
    if keys == {} then 0 else var k :| k in keys; Share(b, k, t) + SumOver(b, keys - {k}, t)
  }

  /** Every account's balance of `t`, added up. */
  ghost function Supply(b: Balances, t: Asset): nat {
    SumOver(b, b.Keys, t)
  }

  lemma SumOverRemove(b: Balances, keys: set<(Addr, Asset)>, k: (Addr, Asset), t: Asset)
    requires k in keys
    ensures SumOver(b, keys, t) == Share(b, k, t) + SumOver(b, keys - {k}, t)
    decreases keys
  {
    var j :| j in keys && SumOver(b, keys, t) == Share(b, j, t) + SumOver(b, keys - {j}, t);
    if j != k {
      SumOverRemove(b, keys - {j}, k, t);
      SumOverRemove(b, keys - {k}, j, t);
      assert keys - {j} - {k} == keys - {k} - {j};
    }
  }

  lemma SumOverFrame(b: Balances, keys: set<(Addr, Asset)>, k: (Addr, Asset), v: nat, t: Asset)
    requires k !in keys
    ensures SumOver(b[k := v], keys, t) == SumOver(b, keys, t)
    decreases keys
  {
    if keys != {} {
      var j :| j in keys;
      SumOverRemove(b, keys, j, t);
      SumOverRemove(b[k := v], keys, j, t);
      SumOverFrame(b, keys - {j}, k, v, t);
    }
  }

  /** Overwriting one row changes the supply by exactly the difference at that row. */
  lemma SupplyUpdate(b: Balances, k: (Addr, Asset), v: nat, t: Asset)
    ensures Supply(b[k := v], t) + Share(b, k, t) == Supply(b, t) + (if k.1 == t then v else 0)
  {
    var b' := b[k := v];
    assert b'.Keys == b.Keys + {k};
    SumOverRemove(b', b'.Keys, k, t);
    assert b'.Keys - {k} == b.Keys - {k};
    SumOverFrame(b, b.Keys - {k}, k, v, t);
    if k in b {
      SumOverRemove(b, b.Keys, k, t);
    } else {
      assert b.Keys - {k} == b.Keys;
    }
  }

  /** A credit raises the supply of its asset by the amount and leaves every other supply alone. */
  lemma SupplyCredit(b: Balances, a: Addr, t: Asset, x: nat, t': Asset)
    ensures Supply(Credit(b, a, t, x), t') == Supply(b, t') + (if t' == t then x else 0)
  {
    SupplyUpdate(b, (a, t), TotalOf(b, a, t) + x, t');
  }

  /** A debit lowers the supply of its asset by the amount and leaves every other supply alone. */
  lemma SupplyDebit(b: Balances, a: Addr, t: Asset, x: nat, t': Asset)
    requires x <= TotalOf(b, a, t)
    ensures Supply(Debit(b, a, t, x), t') + (if t' == t then x else 0) == Supply(b, t')
  {
    SupplyUpdate(b, (a, t), TotalOf(b, a, t) - x, t');
  }
}
