/**
 * Vocabulary shared by every part of the exchange's settlement model:
 * identifiers, the configuration the market is started with, error values
 * and the small Option/Result wrappers.
 */
module Base {

  /** A FLO address (a `floID`), an asset or token name, a tag name and a
      transaction id are all strings in the store. */
  type Addr = string
  type Asset = string
  type Tag = string
  type Txid = string

  /** The chain's native coin: its deposits and withdrawals have their own tables. */
  const FLO: Asset := "FLO"

  datatype Option<+T> = None | Some(value: T)

  /** Every rejection the market can give back to its caller. */
  datatype Error =
    | InvalidFloID
    | InvalidQuantity
    | InvalidPrice
    | InvalidAsset
    | InvalidAmount
    | InvalidToken
    | InvalidSender
    | InvalidReceivers(ids: seq<Addr>)
    | Insufficient(asset: Asset)          // total balance below the amount
    | InsufficientUnlocked(asset: Asset)  // enough in total, but some is locked in orders
    | InsufficientSellChips(asset: Asset)
    | InvalidOrderType
    | OrderNotFound
    | NotOrderOwner
    | AlreadyInProcess                    // a deposit claim that is still PENDING
    | AlreadyRejected                     // a deposit claim that was REJECTED
    | AlreadyUsed                         // a deposit claim that was credited
    | InvalidTransactionID
    | TransactionNotFound
    | AlreadyTagged
    | InvalidTag
    | AlreadyDistributor
    | InvalidDistributorAsset
    | TypeError                           // JavaScript TypeError raised by the code as written
    | ReferenceError                      // JavaScript ReferenceError raised by the code as written
    | UnknownColumn                       // SQL error: a WHERE clause names a column the table lacks

  datatype Result<+T> = Ok(value: T) | Err(error: Error)

  /** The content a transfer's id is a digest of. */
  datatype TransferBody = TransferBody(
    sender: Addr, receivers: seq<(Addr, nat)>, token: Asset, totalAmount: nat, time: int)

  /**
   * What the market is configured with when it starts: the base currency,
   * the tradable assets, the chain's address validator, the digest used for
   * transfer ids, the two id prefixes, the launch-seller cap and the native
   * coin a token withdrawal must cover (send amount plus fee).
   */
  datatype Config = Config(
    currency: Asset,
    assets: set<Asset>,
    validAddr: Addr -> bool,
    digest: TransferBody -> string,
    transferPrefix: string,
    tradePrefix: string,
    maxLaunchSellChips: nat,
    sendAmt: nat,
    fee: nat)

  /** True when `p` is a prefix of `s` (JavaScript's `s.startsWith(p)`). */
  predicate StartsWith(s: string, p: string) {
    |p| <= |s| && s[..|p|] == p
  }

  /** Whether a token may be traded, transferred or deposited: listed or the base currency. */
  predicate KnownToken(cfg: Config, token: Asset) {
    token == cfg.currency || token in cfg.assets
  }
}
