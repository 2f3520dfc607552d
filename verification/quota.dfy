/**
 * Eligibility data: user tags, distributor grants and the launch-seller
 * sell-chip allowance. Tags and distributors are set-membership tables
 * whose insert fails on a duplicate or on an unknown tag or asset.
 */
module Quota {
  import opened Base
  import opened Store
  import opened Orders
  import opened Js

  const LaunchSellerTag: Tag := "launch-seller"

  /** `checkTag` as it is evidently meant: whether the account carries the tag. */
  predicate HasTag(m: Market, floID: Addr, tag: Tag)
    reads m
  {
    (floID, tag) in m.userTags
  }

  /** `checkDistributor` as it is evidently meant: whether the account distributes the asset. */
  predicate IsDistributor(m: Market, floID: Addr, asset: Asset)
    reads m
  {
    (floID, asset) in m.distributors
  }

  /**
   * `addTag`: fails on a duplicate (floID, tag) and on a tag that is not in
   * the tag list; otherwise the account gains exactly that tag.
   */
  method AddTag(m: Market, floID: Addr, tag: Tag) returns (r: Result<()>)
    modifies m`userTags
    ensures HasTag(m, floID, tag) <==> old(HasTag(m, floID, tag)) || r.Ok?
    ensures old(HasTag(m, floID, tag)) ==> r == Err(AlreadyTagged)
    ensures !old(HasTag(m, floID, tag)) && tag !in m.tagList ==> r == Err(InvalidTag)
    ensures r.Ok? <==> !old(HasTag(m, floID, tag)) && tag in m.tagList
    ensures r.Ok? ==> m.userTags == old(m.userTags) + {(floID, tag)}
    ensures r.Err? ==> m.userTags == old(m.userTags)
  {
    if (floID, tag) in m.userTags {
      return Err(AlreadyTagged);
    }
    if tag !in m.tagList {
      return Err(InvalidTag);
    }
    m.userTags := m.userTags + {(floID, tag)};
    return Ok(());
  }

  /** `removeTag`: the account no longer carries the tag; every other grant stays. */
  method RemoveTag(m: Market, floID: Addr, tag: Tag) returns (r: Result<()>)
    modifies m`userTags
    ensures r.Ok? && !HasTag(m, floID, tag)
    ensures m.userTags == old(m.userTags) - {(floID, tag)}
  {
    m.userTags := m.userTags - {(floID, tag)};
    return Ok(());
  }

  /**
   * `addDistributor`: fails on a duplicate (floID, asset) and on an asset
   * that is not listed; otherwise the account becomes a distributor of it.
   */
  method AddDistributor(m: Market, floID: Addr, asset: Asset) returns (r: Result<()>)
    modifies m`distributors
    ensures IsDistributor(m, floID, asset) <==> old(IsDistributor(m, floID, asset)) || r.Ok?
    ensures old(IsDistributor(m, floID, asset)) ==> r == Err(AlreadyDistributor)
    ensures !old(IsDistributor(m, floID, asset)) && asset !in m.cfg.assets ==> r == Err(InvalidDistributorAsset)
    ensures r.Ok? <==> !old(IsDistributor(m, floID, asset)) && asset in m.cfg.assets
    ensures r.Ok? ==> m.distributors == old(m.distributors) + {(floID, asset)}
    ensures r.Err? ==> m.distributors == old(m.distributors)
  {
    if (floID, asset) in m.distributors {
      return Err(AlreadyDistributor);
    }
    if asset !in m.cfg.assets {
      return Err(InvalidDistributorAsset);
    }
    m.distributors := m.distributors + {(floID, asset)};
    return Ok(());
  }

  /** The columns of a Distributors row that the model keeps (its `id` is not modelled). */
  const DistributorColumns: set<string> := {"floID", "asset"}

  /** The value of a grant in one of the Distributors columns. */
  function GrantColumn(g: (Addr, Asset), column: string): string {
    if column == "floID" then g.0 else g.1
  }

  /**
   * `DELETE FROM Distributors WHERE floID=? AND <column>=?`: a column the
   * table does not have fails the whole statement; otherwise exactly the
   * grants of `floID` whose `column` holds `value` are deleted.
   */
  function DeleteGrants(ds: set<(Addr, Asset)>, floID: Addr, column: string, value: string): (r: Result<set<(Addr, Asset)>>)
    ensures r.Err? <==> column !in DistributorColumns
    ensures r.Err? ==> r.error == UnknownColumn
    ensures r.Ok? ==> r.value <= ds
    ensures r.Ok? && column == "asset" ==> r.value == ds - {(floID, value)}
  {
    if column !in DistributorColumns then Err(UnknownColumn)
    else Ok(set g | g in ds && !(g.0 == floID && GrantColumn(g, column) == value))
  }

  /** The table after a statement: its result when it succeeded, unchanged when it failed. */
  function Committed(ds: set<(Addr, Asset)>, r: Result<set<(Addr, Asset)>>): set<(Addr, Asset)> {
    if r.Ok? then r.value else ds
  }

  /** `removeDistributor` as evidently meant, filtering on the asset column. */
  method RemoveDistributor(m: Market, floID: Addr, asset: Asset) returns (r: Result<()>)
    modifies m`distributors
    ensures r.Ok? && !IsDistributor(m, floID, asset)
    ensures m.distributors == old(m.distributors) - {(floID, asset)}
  {
    var deleted := DeleteGrants(m.distributors, floID, "asset", asset);
    m.distributors := Committed(m.distributors, deleted);
    r := match deleted case Ok(_) => Ok(()) case Err(e) => Err(e);
  }

  /**
   * `removeDistributor` as written: the same statement filtering on a `tag`
   * column, which Distributors does not have, so the request is rejected
   * and the grant stays.
   */
  method RemoveDistributorAsWritten(m: Market, floID: Addr, asset: Asset) returns (r: Result<()>)
    modifies m`distributors
    ensures r == Err(UnknownColumn)
    ensures m.distributors == old(m.distributors)
  {
    var deleted := DeleteGrants(m.distributors, floID, "tag", asset);
    m.distributors := Committed(m.distributors, deleted);
    r := match deleted case Ok(_) => Ok(()) case Err(e) => Err(e);
  }

  /**
   * For a grant that is present, the intended statement deletes exactly it
   * while the statement as written fails and deletes nothing.
   */
  lemma RemoveDistributorAsWrittenKeepsGrant(ds: set<(Addr, Asset)>, floID: Addr, asset: Asset)
    requires (floID, asset) in ds
    ensures DeleteGrants(ds, floID, "asset", asset) == Ok(ds - {(floID, asset)})
    ensures (floID, asset) !in DeleteGrants(ds, floID, "asset", asset).value
    ensures DeleteGrants(ds, floID, "tag", asset) == Err(UnknownColumn)
  {
  }

  // ---------------------------------------------------------------------
  // Launch-seller sell chips
  // ---------------------------------------------------------------------

  /** The FLO the account sold (`sold`) or bought (`!sold`), summed over TradeTransactions. */
  function Traded(trades: seq<TradeRecord>, a: Addr, sold: bool): nat {
    if trades == [] then 0
    else
      var tr := trades[|trades| - 1];
      Traded(trades[..|trades| - 1], a, sold)
        + (if tr.asset == FLO && (if sold then tr.seller else tr.buyer) == a then tr.quantity else 0)
  }

  /**
   * `addSellChipsIfLaunchSeller` as evidently meant: a launch seller is
   * granted FLO sell chips up to what is left of its allowance, which is the
   * maximum less what it sold and was already granted, plus what it bought;
   * no row is produced when the account is not a launch seller or nothing
   * positive is left to grant.
   */
  function LaunchSellChips(m: Market, floID: Addr, quantity: int): (g: Option<ChipGrant>)
    reads m
    ensures g.Some? ==> g.value.floID == floID && g.value.asset == FLO
    ensures g.Some? ==> 0 < g.value.quantity <= quantity
    ensures g.Some? ==>
      ChipsOf(m.sellChips, floID, FLO) + g.value.quantity + Traded(m.trades, floID, true)
        <= m.cfg.maxLaunchSellChips + Traded(m.trades, floID, false)
    ensures g.Some? ==>
      g.value.quantity == quantity ||
      ChipsOf(m.sellChips, floID, FLO) + g.value.quantity + Traded(m.trades, floID, true)
        == m.cfg.maxLaunchSellChips + Traded(m.trades, floID, false)
    ensures g.None? <==>
      || !HasTag(m, floID, LaunchSellerTag)
      || quantity <= 0
      || ChipsOf(m.sellChips, floID, FLO) + Traded(m.trades, floID, true)
           >= m.cfg.maxLaunchSellChips + Traded(m.trades, floID, false)
  {
    if !HasTag(m, floID, LaunchSellerTag) then None
    else
      var sold := Traded(m.trades, floID, true);
      var bought := Traded(m.trades, floID, false);
      var chips := ChipsOf(m.sellChips, floID, FLO);
      var remaining := m.cfg.maxLaunchSellChips - (sold + chips) + bought;
      var q := if quantity < remaining then quantity else remaining;
      if q > 0 then Some(ChipGrant(floID, FLO, q)) else None
  }

  /**
   * Granting what `LaunchSellChips` computes keeps the account within its
   * lifetime allowance, whatever was granted before.
   */
  lemma LaunchGrantWithinAllowance(m: Market, floID: Addr, quantity: int)
    requires LaunchSellChips(m, floID, quantity).Some?
    ensures ChipsOf(m.sellChips + [LaunchSellChips(m, floID, quantity).value], floID, FLO) + Traded(m.trades, floID, true)
      <= m.cfg.maxLaunchSellChips + Traded(m.trades, floID, false)
  {
    var g := LaunchSellChips(m, floID, quantity).value;
    assert (m.sellChips + [g])[..|m.sellChips|] == m.sellChips;
  }

  /**
   * The grant step of `addSellChipsIfLaunchSeller` on whatever its three
   * sums hold, with JavaScript's `+`, `-`, `Math.min` and `>`: the quantity
   * capped by the maximum less sold and granted plus bought, and a row only
   * when that cap is positive. Only numeric sums can produce a row.
   */
  function LaunchGrant(max: int, floID: Addr, quantity: int, sold: JsValue, bought: JsValue, chips: JsValue): (g: Option<ChipGrant>)
    ensures g.Some? ==> sold.Num? && bought.Num? && chips.Num?
    ensures g.Some? ==> g.value.floID == floID && g.value.asset == FLO && 0 < g.value.quantity <= quantity
    ensures g.Some? ==> g.value.quantity + sold.n + chips.n <= max + bought.n
  {
    var q := Min(Num(quantity), Plus(Minus(Num(max), Plus(sold, chips)), bought));
    if Greater(q, Num(0)) then Some(ChipGrant(floID, FLO, q.n)) else None
  }

  /** On numeric sums the source's grant step is exactly the intended allowance. */
  lemma LaunchGrantOnNumbers(m: Market, floID: Addr, quantity: int)
    requires HasTag(m, floID, LaunchSellerTag)
    ensures LaunchSellChips(m, floID, quantity) ==
      LaunchGrant(m.cfg.maxLaunchSellChips, floID, quantity,
                  Num(Traded(m.trades, floID, true)), Num(Traded(m.trades, floID, false)), Num(ChipsOf(m.sellChips, floID, FLO)))
  {
  }

  /** What a `SELECT SUM(quantity) ...` query resolves with: one row holding the sum. */
  function SumRows(sum: int): JsValue {
    Rows([map["SUM(quantity)" := sum]])
  }

  /**
   * `addSellChipsIfLaunchSeller` as written binds `sold`, `brought` and
   * `chips` to the queries' whole row arrays. So a launch seller with
   * allowance left, to whom the intended allowance grants sell chips, is
   * granted none.
   */
  lemma LaunchSellChipsAsWrittenGrantsNothing(m: Market, floID: Addr, quantity: int)
    requires HasTag(m, floID, LaunchSellerTag) && quantity > 0
    requires ChipsOf(m.sellChips, floID, FLO) + Traded(m.trades, floID, true)
      < m.cfg.maxLaunchSellChips + Traded(m.trades, floID, false)
    ensures LaunchSellChips(m, floID, quantity).Some? && LaunchSellChips(m, floID, quantity).value.quantity > 0
    ensures LaunchGrant(m.cfg.maxLaunchSellChips, floID, quantity,
                        SumRows(Traded(m.trades, floID, true)), SumRows(Traded(m.trades, floID, false)),
                        SumRows(ChipsOf(m.sellChips, floID, FLO))) == None
  {
  }
}
