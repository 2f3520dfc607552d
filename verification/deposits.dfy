/**
 * Deposit claims. A claim names a blockchain transaction; it enters InputFLO
 * or InputToken as PENDING and a later confirmation pass settles it: SUCCESS
 * with the verified amount credited, REJECTED on a permanent verification
 * failure, or left PENDING for the next pass. A settled claim is never
 * touched again, so every claim is credited at most once.
 */
module Deposits {
  import opened Base
  import opened Ledger
  import opened Store
  import opened Chain

  // ---------------------------------------------------------------------
  // Claim requests
  // ---------------------------------------------------------------------

  /** `SELECT status ... WHERE txid=? AND floID=?`: the first claim on that key, if any. */
  function FindClaim(cs: seq<Claim>, txid: Txid, floID: Addr): (r: Option<nat>)
    ensures r.Some? ==> r.value < |cs| && cs[r.value].txid == txid && cs[r.value].floID == floID
    ensures r.None? <==> forall i :: 0 <= i < |cs| ==> cs[i].txid != txid || cs[i].floID != floID
  {
    if cs == [] then None
    else if cs[0].txid == txid && cs[0].floID == floID then Some(0)
    else match FindClaim(cs[1..], txid, floID)
      case None => None
      case Some(k) => Some(k + 1)
  }

  /** The rejection of a repeated claim, keyed to the status of the existing one. */
  function ClaimError(s: Status): (e: Error)
    ensures e in {AlreadyInProcess, AlreadyRejected, AlreadyUsed}
    ensures e == AlreadyUsed <==> s == Success
    ensures e == AlreadyRejected <==> s == Rejected
  {
    match s
    case Pending => AlreadyInProcess
    case Rejected => AlreadyRejected
    case Success => AlreadyUsed
  }

  /** A new claim on a key no row holds keeps the keys unique. */
  lemma ClaimAppendUnique(cs: seq<Claim>, c: Claim)
    requires UniqueClaims(cs)
    requires forall i :: 0 <= i < |cs| ==> cs[i].txid != c.txid || cs[i].floID != c.floID
    ensures UniqueClaims(cs + [c])
  {
  }

  /**
   * `depositFLO`: a repeated (txid, floID) is rejected according to the
   * status of the existing claim and nothing changes; otherwise exactly one
   * PENDING claim is appended. No balance moves.
   */
  method DepositFLO(m: Market, floID: Addr, txid: Txid) returns (r: Result<()>)
    requires m.Valid()
    modifies m`inputFLO
    ensures m.Valid()
    ensures FindClaim(old(m.inputFLO), txid, floID).Some? ==>
      r == Err(ClaimError(old(m.inputFLO)[FindClaim(old(m.inputFLO), txid, floID).value].status))
    ensures r.Ok? <==> forall i :: 0 <= i < |old(m.inputFLO)| ==> old(m.inputFLO)[i].txid != txid || old(m.inputFLO)[i].floID != floID
    ensures r.Ok? ==> m.inputFLO == old(m.inputFLO) + [Claim(txid, floID, Pending, None, 0)]
    ensures r.Err? ==> m.inputFLO == old(m.inputFLO)
  {
    var found := FindClaim(m.inputFLO, txid, floID);
    if found.Some? {
      return Err(ClaimError(m.inputFLO[found.value].status));
    }
    ClaimAppendUnique(m.inputFLO, Claim(txid, floID, Pending, None, 0));
    m.inputFLO := m.inputFLO + [Claim(txid, floID, Pending, None, 0)];
    return Ok(());
  }

  /** `depositToken`: the same rules as `DepositFLO`, on InputToken. */
  method DepositToken(m: Market, floID: Addr, txid: Txid) returns (r: Result<()>)
    requires m.Valid()
    modifies m`inputToken
    ensures m.Valid()
    ensures FindClaim(old(m.inputToken), txid, floID).Some? ==>
      r == Err(ClaimError(old(m.inputToken)[FindClaim(old(m.inputToken), txid, floID).value].status))
    ensures r.Ok? <==> forall i :: 0 <= i < |old(m.inputToken)| ==> old(m.inputToken)[i].txid != txid || old(m.inputToken)[i].floID != floID
    ensures r.Ok? ==> m.inputToken == old(m.inputToken) + [Claim(txid, floID, Pending, None, 0)]
    ensures r.Err? ==> m.inputToken == old(m.inputToken)
  {
    var found := FindClaim(m.inputToken, txid, floID);
    if found.Some? {
      return Err(ClaimError(m.inputToken[found.value].status));
    }
    ClaimAppendUnique(m.inputToken, Claim(txid, floID, Pending, None, 0));
    m.inputToken := m.inputToken + [Claim(txid, floID, Pending, None, 0)];
    return Ok(());
  }

  // ---------------------------------------------------------------------
  // What settled claims have credited
  // ---------------------------------------------------------------------

  /** The asset a claim credits: its token once set, FLO otherwise. */
  function Denomination(c: Claim): Asset {
    if c.token.Some? then c.token.value else FLO
  }

  /** What a claim has credited account `a` in `t`: its amount once it is SUCCESS. */
  function Credited(c: Claim, a: Addr, t: Asset): nat {
    if c.floID == a && c.status == Success && Denomination(c) == t then c.amount else 0
  }

  /** The sum over a claim table of what its settled claims credited `a` in `t`. */
  function Deposited(cs: seq<Claim>, a: Addr, t: Asset): nat {
    if cs == [] then 0 else Deposited(cs[..|cs| - 1], a, t) + Credited(cs[|cs| - 1], a, t)
  }

  lemma DepositedAppend(cs: seq<Claim>, c: Claim, a: Addr, t: Asset)
    ensures Deposited(cs + [c], a, t) == Deposited(cs, a, t) + Credited(c, a, t)
  {
    assert (cs + [c])[..|cs|] == cs;
  }

  /** Rewriting one claim changes the table's credited sum by exactly that claim's difference. */
  lemma {:induction false} DepositedUpdate(cs: seq<Claim>, i: nat, c: Claim, a: Addr, t: Asset)
    requires i < |cs|
    ensures Deposited(cs[i := c], a, t) + Credited(cs[i], a, t) == Deposited(cs, a, t) + Credited(c, a, t)
    decreases |cs|
  {
    var n := |cs| - 1;
    if i == n {
      assert cs[i := c][..n] == cs[..n];
    } else {
      DepositedUpdate(cs[..n], i, c, a, t);
      assert cs[i := c][..n] == cs[..n][i := c];
    }
  }

  // ---------------------------------------------------------------------
  // Settling one claim
  // ---------------------------------------------------------------------

  /**
   * The claim after a confirmation pass has checked it: only a PENDING claim
   * moves, to SUCCESS with the verified amount (and, for a token claim, its
   * token) or to REJECTED on a permanent failure.
   */
  function Settle(c: Claim, token: Option<Asset>, amount: TxCheck<nat>): (c': Claim)
    ensures c'.txid == c.txid && c'.floID == c.floID
    ensures c.status != Pending ==> c' == c
    ensures c.status == Pending ==>
      && (c'.status == Success <==> amount.Verified?)
      && (c'.status == Rejected <==> amount.Failed? && amount.permanent)
      && (amount.Verified? ==> c'.amount == amount.value && c'.token == token)
      && (!amount.Verified? ==> c' == c.(status := c'.status))
  {
    if c.status != Pending then c
    else match amount
      case Verified(v) => c.(status := Success, token := token, amount := v)
      case Failed(permanent, _) => if permanent then c.(status := Rejected) else c
  }

  /** The verdict of `confirmDepositFLO.checkTx` on a claim, with `chain` the blockchain lookup. */
  function FloVerdict(c: Claim, sink: Option<Addr>, chain: Txid -> Option<FloTx>): TxCheck<nat> {
    CheckFloTx(c.floID, sink, chain(c.txid))
  }

  /** The verdict of `confirmDepositToken.checkTx` on a claim, with `tokens` the token-layer lookup. */
  function TokenVerdict(cfg: Config, c: Claim, sink: Option<Addr>, tokens: Txid -> Option<TokenTx>): TxCheck<TokenCredit> {
    CheckTokenTx(cfg, c.floID, sink, tokens(c.txid))
  }

  /** The token amount of a token verdict, as `Settle` records it. */
  function TokenAmount(r: TxCheck<TokenCredit>): TxCheck<nat> {
    match r
    case Verified(tc) => Verified(tc.tokenAmount)
    case Failed(permanent, reason) => Failed(permanent, reason)
  }

  /** The token a token verdict credits, if it credits one. */
  function TokenOf(r: TxCheck<TokenCredit>): Option<Asset> {
    if r.Verified? then Some(r.value.token) else None
  }

  /** The ledger identity a confirmation step keeps: every credit is matched by a settled claim. */
  ghost predicate Matched(b: Balances, b': Balances, flo: seq<Claim>, flo': seq<Claim>, tok: seq<Claim>, tok': seq<Claim>) {
    forall a: Addr, t: Asset ::
      TotalOf(b', a, t) + Deposited(flo, a, t) + Deposited(tok, a, t)
        == TotalOf(b, a, t) + Deposited(flo', a, t) + Deposited(tok', a, t)
  }

  /** Balances that only grew. */
  ghost predicate Grew(b: Balances, b': Balances) {
    forall a: Addr, t: Asset :: TotalOf(b, a, t) <= TotalOf(b', a, t)
  }

  lemma MatchedTrans(b0: Balances, b1: Balances, b2: Balances, f0: seq<Claim>, f1: seq<Claim>, f2: seq<Claim>,
                     t0: seq<Claim>, t1: seq<Claim>, t2: seq<Claim>)
    requires Matched(b0, b1, f0, f1, t0, t1) && Matched(b1, b2, f1, f2, t1, t2)
    ensures Matched(b0, b2, f0, f2, t0, t2)
  {
    forall a: Addr, t: Asset
      ensures TotalOf(b2, a, t) + Deposited(f0, a, t) + Deposited(t0, a, t)
        == TotalOf(b0, a, t) + Deposited(f2, a, t) + Deposited(t2, a, t)
    {
      assert TotalOf(b1, a, t) + Deposited(f0, a, t) + Deposited(t0, a, t)
        == TotalOf(b0, a, t) + Deposited(f1, a, t) + Deposited(t1, a, t);
      assert TotalOf(b2, a, t) + Deposited(f1, a, t) + Deposited(t1, a, t)
        == TotalOf(b1, a, t) + Deposited(f2, a, t) + Deposited(t2, a, t);
    }
  }

  /**
   * One iteration of `confirmDepositFLO`: the claim at `i` is settled by its
   * verdict and, when it succeeds, its claimant is credited the verified
   * FLO, so what the ledger gains is exactly what the claim now records.
   */
  method ConfirmFloClaim(m: Market, i: nat, verdict: TxCheck<nat>)
    requires i < |m.inputFLO| && NoTokenColumn(m.inputFLO)
    modifies m`balances, m`inputFLO
    ensures m.inputFLO == old(m.inputFLO)[i := Settle(old(m.inputFLO)[i], None, verdict)]
    ensures Matched(old(m.balances), m.balances, old(m.inputFLO), m.inputFLO, m.inputToken, m.inputToken)
    ensures Grew(old(m.balances), m.balances)
  {
    var c := m.inputFLO[i];
    var c' := Settle(c, None, verdict);
    ghost var b := m.balances;
    ghost var cs := m.inputFLO;
    if c.status == Pending && verdict.Verified? {
      m.balances := Credit(m.balances, c.floID, FLO, verdict.value);
    }
    m.inputFLO := m.inputFLO[i := c'];
    forall a: Addr, t: Asset
      ensures TotalOf(m.balances, a, t) + Deposited(cs, a, t) + Deposited(m.inputToken, a, t)
        == TotalOf(b, a, t) + Deposited(m.inputFLO, a, t) + Deposited(m.inputToken, a, t)
    {
      DepositedUpdate(cs, i, c', a, t);
    }
  }

  /**
   * One iteration of `confirmDepositToken` for the token claim at `i`. A
   * verified claim is settled with its token and amount and credits both;
   * when InputFLO holds no claim on the same key the FLO the transaction paid
   * the sink is credited too and recorded as a SUCCESS InputFLO claim.
   */
  method ConfirmTokenClaim(m: Market, i: nat, verdict: TxCheck<TokenCredit>)
    requires i < |m.inputToken| && NoTokenColumn(m.inputFLO) && UniqueClaims(m.inputFLO)
    requires verdict.Verified? ==> verdict.value.token != FLO
    modifies m`balances, m`inputFLO, m`inputToken
    ensures m.inputToken == old(m.inputToken)[i := Settle(old(m.inputToken)[i], TokenOf(verdict), TokenAmount(verdict))]
    ensures old(m.inputToken)[i].status == Pending && verdict.Verified? &&
            FindClaim(old(m.inputFLO), old(m.inputToken)[i].txid, old(m.inputToken)[i].floID).None? ==>
      m.inputFLO == old(m.inputFLO) + [Claim(old(m.inputToken)[i].txid, old(m.inputToken)[i].floID, Success, None, verdict.value.flo)]
    ensures !(old(m.inputToken)[i].status == Pending && verdict.Verified? &&
              FindClaim(old(m.inputFLO), old(m.inputToken)[i].txid, old(m.inputToken)[i].floID).None?) ==>
      m.inputFLO == old(m.inputFLO)
    ensures NoTokenColumn(m.inputFLO) && UniqueClaims(m.inputFLO)
    ensures Matched(old(m.balances), m.balances, old(m.inputFLO), m.inputFLO, old(m.inputToken), m.inputToken)
    ensures Grew(old(m.balances), m.balances)
  {
    var c := m.inputToken[i];
    ghost var b, flo, tok := m.balances, m.inputFLO, m.inputToken;
    if c.status == Pending && verdict.Verified? && FindClaim(m.inputFLO, c.txid, c.floID).None? {
      RecordFloReceipt(m, c.txid, c.floID, verdict.value.flo);
    } else {
      MatchedRefl(m.balances, m.inputFLO, m.inputToken);
    }
    ghost var b1 := m.balances;
    SettleTokenClaim(m, i, verdict);
    MatchedTrans(b, b1, m.balances, flo, m.inputFLO, m.inputFLO, tok, tok, m.inputToken);
  }

  /**
   * The FLO leg of a token deposit with no FLO claim on its key: the FLO is
   * credited and recorded as a SUCCESS InputFLO claim, keeping keys unique.
   */
  method RecordFloReceipt(m: Market, txid: Txid, floID: Addr, flo: nat)
    requires NoTokenColumn(m.inputFLO) && UniqueClaims(m.inputFLO)
    requires FindClaim(m.inputFLO, txid, floID).None?
    modifies m`balances, m`inputFLO
    ensures m.inputFLO == old(m.inputFLO) + [Claim(txid, floID, Success, None, flo)]
    ensures NoTokenColumn(m.inputFLO) && UniqueClaims(m.inputFLO)
    ensures Matched(old(m.balances), m.balances, old(m.inputFLO), m.inputFLO, m.inputToken, m.inputToken)
    ensures Grew(old(m.balances), m.balances)
  {
    var receipt := Claim(txid, floID, Success, None, flo);
    ghost var cs := m.inputFLO;
    m.balances := Credit(m.balances, floID, FLO, flo);
    ClaimAppendUnique(m.inputFLO, receipt);
    m.inputFLO := m.inputFLO + [receipt];
    forall a: Addr, t: Asset
      ensures Deposited(m.inputFLO, a, t) == Deposited(cs, a, t) + Credited(receipt, a, t)
    {
      DepositedAppend(cs, receipt, a, t);
    }
  }

  /** The token leg: the claim at `i` is settled and a verified one credits its token. */
  method SettleTokenClaim(m: Market, i: nat, verdict: TxCheck<TokenCredit>)
    requires i < |m.inputToken|
    modifies m`balances, m`inputToken
    ensures m.inputToken == old(m.inputToken)[i := Settle(old(m.inputToken)[i], TokenOf(verdict), TokenAmount(verdict))]
    ensures Matched(old(m.balances), m.balances, m.inputFLO, m.inputFLO, old(m.inputToken), m.inputToken)
    ensures Grew(old(m.balances), m.balances)
  {
    var c := m.inputToken[i];
    var c' := Settle(c, TokenOf(verdict), TokenAmount(verdict));
    ghost var tok := m.inputToken;
    if c.status == Pending && verdict.Verified? {
      m.balances := Credit(m.balances, c.floID, verdict.value.token, verdict.value.tokenAmount);
    }
    m.inputToken := m.inputToken[i := c'];
    forall a: Addr, t: Asset
      ensures Deposited(m.inputToken, a, t) + Credited(c, a, t) == Deposited(tok, a, t) + Credited(c', a, t)
    {
      DepositedUpdate(tok, i, c', a, t);
    }
  }

  // ---------------------------------------------------------------------
  // The confirmation passes
  // ---------------------------------------------------------------------

  /**
   * `confirmDepositFLO`: every PENDING FLO claim is checked against the
   * chain and settled by its verdict; settled claims are left alone. What
   * the ledger gains is exactly what the newly settled claims record, and no
   * balance falls.
   */
  method ConfirmDepositFLO(m: Market, sink: Option<Addr>, chain: Txid -> Option<FloTx>)
    requires m.Valid()
    modifies m`balances, m`inputFLO
    ensures m.Valid()
    ensures |m.inputFLO| == |old(m.inputFLO)|
    ensures forall i :: 0 <= i < |m.inputFLO| ==>
      m.inputFLO[i] == Settle(old(m.inputFLO)[i], None, FloVerdict(old(m.inputFLO)[i], sink, chain))
    ensures Matched(old(m.balances), m.balances, old(m.inputFLO), m.inputFLO, m.inputToken, m.inputToken)
    ensures Grew(old(m.balances), m.balances)
  {
    ghost var cs0 := m.inputFLO;
    var i := 0;
    while i < |m.inputFLO|
      invariant 0 <= i <= |m.inputFLO| == |cs0|
      invariant forall j :: 0 <= j < i ==> m.inputFLO[j] == Settle(cs0[j], None, FloVerdict(cs0[j], sink, chain))
      invariant forall j :: i <= j < |cs0| ==> m.inputFLO[j] == cs0[j]
      invariant Matched(old(m.balances), m.balances, cs0, m.inputFLO, m.inputToken, m.inputToken)
      invariant Grew(old(m.balances), m.balances)
      invariant Solvent(m.balances, m.cfg.currency, m.sellOrders, m.buyOrders)
      invariant UniqueClaims(m.inputFLO) && NoTokenColumn(m.inputFLO)
    {
      ghost var b := m.balances;
      ghost var cs := m.inputFLO;
      FloStep(m, i, sink, chain);
      MatchedTrans(old(m.balances), b, m.balances, cs0, cs, m.inputFLO, m.inputToken, m.inputToken, m.inputToken);
      i := i + 1;
    }
  }

  /**
   * The body of `confirmDepositFLO`'s loop for the claim at `i`: a PENDING
   * claim is checked against the chain and confirmed by the verdict; a
   * settled one is skipped.
   */
  method FloStep(m: Market, i: nat, sink: Option<Addr>, chain: Txid -> Option<FloTx>)
    requires m.Valid() && i < |m.inputFLO|
    modifies m`balances, m`inputFLO
    ensures m.Valid()
    ensures m.inputFLO == old(m.inputFLO)[i := Settle(old(m.inputFLO)[i], None, FloVerdict(old(m.inputFLO)[i], sink, chain))]
    ensures Matched(old(m.balances), m.balances, old(m.inputFLO), m.inputFLO, m.inputToken, m.inputToken)
    ensures Grew(old(m.balances), m.balances)
  {
    ghost var b := m.balances;
    var c := m.inputFLO[i];
    if c.status == Pending {
      var verdict := CheckFloTx(c.floID, sink, chain(c.txid));
      ConfirmFloClaim(m, i, verdict);
    } else {
      MatchedRefl(b, m.inputFLO, m.inputToken);
      assert m.inputFLO[i := c] == m.inputFLO;
    }
    GrowthKeepsSolvent(b, m.balances, m.cfg.currency, m.sellOrders, m.buyOrders);
  }

  /** A step that settles nothing keeps the identity trivially. */
  lemma MatchedRefl(b: Balances, flo: seq<Claim>, tok: seq<Claim>)
    ensures Matched(b, b, flo, flo, tok, tok)
  {
  }

  /**
   * `confirmDepositToken`: every PENDING token claim is checked against the
   * token layer and settled by its verdict; settled claims are left alone.
   * Existing InputFLO claims stay as they were and every InputFLO claim the
   * pass adds is a SUCCESS receipt for FLO it credited, so what the ledger
   * gains is exactly what the newly settled claims of both tables record.
   */
  method ConfirmDepositToken(m: Market, sink: Option<Addr>, tokens: Txid -> Option<TokenTx>)
    requires m.Valid()
    modifies m`balances, m`inputFLO, m`inputToken
    ensures m.Valid()
    ensures |m.inputToken| == |old(m.inputToken)|
    ensures forall i :: 0 <= i < |m.inputToken| ==>
      var verdict := TokenVerdict(m.cfg, old(m.inputToken)[i], sink, tokens);
      m.inputToken[i] == Settle(old(m.inputToken)[i], TokenOf(verdict), TokenAmount(verdict))
    ensures m.inputFLO == old(m.inputFLO) + Receipts(m.cfg, old(m.inputToken), old(m.inputFLO), sink, tokens)
    ensures Matched(old(m.balances), m.balances, old(m.inputFLO), m.inputFLO, old(m.inputToken), m.inputToken)
    ensures Grew(old(m.balances), m.balances)
  {
    ghost var b0, flo0, tok0 := m.balances, m.inputFLO, m.inputToken;
    MatchedRefl(b0, flo0, tok0);
    var i := 0;
    while i < |m.inputToken|
      invariant m.Valid() && i <= |tok0|
      invariant TokenPassReached(m, i, b0, flo0, tok0, sink, tokens)
    {
      TokenPassStep(m, i, sink, tokens, b0, flo0, tok0);
      i := i + 1;
    }
    assert tok0[..i] == tok0;
  }

  /**
   * The token pass has handled the first `i` of the claims `tok0`, starting
   * from balances `b0` and FLO claims `flo0`: those claims are settled by
   * their verdicts, the rest are as they were, their receipts follow the
   * FLO claims, and the ledger identity holds.
   */
  ghost predicate TokenPassReached(m: Market, i: nat, b0: Balances, flo0: seq<Claim>, tok0: seq<Claim>,
                                   sink: Option<Addr>, tokens: Txid -> Option<TokenTx>)
    reads m
  {
    && i <= |tok0| == |m.inputToken|
    && (forall j :: 0 <= j < i ==>
          var verdict := TokenVerdict(m.cfg, tok0[j], sink, tokens);
          m.inputToken[j] == Settle(tok0[j], TokenOf(verdict), TokenAmount(verdict)))
    && (forall j :: i <= j < |tok0| ==> m.inputToken[j] == tok0[j])
    && UniqueClaims(tok0)
    && m.inputFLO == flo0 + Receipts(m.cfg, tok0[..i], flo0, sink, tokens)
    && Matched(b0, m.balances, flo0, m.inputFLO, tok0, m.inputToken)
    && Grew(b0, m.balances)
  }

  /** One iteration of `confirmDepositToken`'s loop moves the pass on by one claim. */
  method TokenPassStep(m: Market, i: nat, sink: Option<Addr>, tokens: Txid -> Option<TokenTx>,
                       ghost b0: Balances, ghost flo0: seq<Claim>, ghost tok0: seq<Claim>)
    requires m.Valid() && i < |tok0| && TokenPassReached(m, i, b0, flo0, tok0, sink, tokens)
    modifies m`balances, m`inputFLO, m`inputToken
    ensures m.Valid() && TokenPassReached(m, i + 1, b0, flo0, tok0, sink, tokens)
  {
    ghost var b := m.balances;
    ghost var flo := m.inputFLO;
    ghost var tok := m.inputToken;
    TokenStep(m, i, sink, tokens);
    ReceiptsStep(m.cfg, tok0, i, flo0, sink, tokens);
    MatchedTrans(b0, b, m.balances, flo0, flo, m.inputFLO, tok0, tok, m.inputToken);
  }

  /**
   * The body of `confirmDepositToken`'s loop for the claim at `i`: a PENDING
   * claim is checked against the token layer and confirmed by the verdict;
   * a settled one is skipped.
   */
  method TokenStep(m: Market, i: nat, sink: Option<Addr>, tokens: Txid -> Option<TokenTx>)
    requires m.Valid() && i < |m.inputToken|
    modifies m`balances, m`inputFLO, m`inputToken
    ensures m.Valid()
    ensures var verdict := TokenVerdict(m.cfg, old(m.inputToken)[i], sink, tokens);
      m.inputToken == old(m.inputToken)[i := Settle(old(m.inputToken)[i], TokenOf(verdict), TokenAmount(verdict))]
    ensures m.inputFLO == old(m.inputFLO) + Receipt(m.cfg, old(m.inputToken)[i], old(m.inputFLO), sink, tokens)
    ensures Matched(old(m.balances), m.balances, old(m.inputFLO), m.inputFLO, old(m.inputToken), m.inputToken)
    ensures Grew(old(m.balances), m.balances)
  {
    ghost var b := m.balances;
    var c := m.inputToken[i];
    if c.status == Pending {
      var verdict := CheckTokenTx(m.cfg, c.floID, sink, tokens(c.txid));
      ConfirmTokenClaim(m, i, verdict);
    } else {
      MatchedRefl(b, m.inputFLO, m.inputToken);
      assert m.inputToken[i := c] == m.inputToken;
      assert m.inputFLO + [] == m.inputFLO;
    }
    GrowthKeepsSolvent(b, m.balances, m.cfg.currency, m.sellOrders, m.buyOrders);
  }

  // ---------------------------------------------------------------------
  // The InputFLO receipts of a token pass
  // ---------------------------------------------------------------------

  /**
   * The InputFLO row the token pass adds for claim `c` when `flo` are the FLO
   * claims present: a SUCCESS receipt of the FLO its transaction paid the
   * sink, when `c` is PENDING, verifies and no FLO claim holds its key.
   */
  function Receipt(cfg: Config, c: Claim, flo: seq<Claim>, sink: Option<Addr>, tokens: Txid -> Option<TokenTx>): seq<Claim> {
    var verdict := TokenVerdict(cfg, c, sink, tokens);
    if c.status == Pending && verdict.Verified? && FindClaim(flo, c.txid, c.floID).None?
    then [Claim(c.txid, c.floID, Success, None, verdict.value.flo)]
    else []
  }

  /**
   * The receipts a token pass over the claims `cs` appends, in order, with
   * `flo` the FLO claims before the pass. Each is a SUCCESS row with no token
   * on the key of one of the claims, so a pass over claims with distinct
   * keys adds at most one receipt per claim and never two on one key.
   */
  function Receipts(cfg: Config, cs: seq<Claim>, flo: seq<Claim>, sink: Option<Addr>, tokens: Txid -> Option<TokenTx>): (rs: seq<Claim>)
    ensures |rs| <= |cs|
    ensures forall j :: 0 <= j < |rs| ==> rs[j].status == Success && rs[j].token == None
  {
    if cs == [] then []
    else Receipts(cfg, cs[..|cs| - 1], flo, sink, tokens) + Receipt(cfg, cs[|cs| - 1], flo, sink, tokens)
  }

  /** A key that no claim of `cs` holds is held by none of their receipts. */
  lemma {:induction false} ReceiptsAvoid(cfg: Config, cs: seq<Claim>, flo: seq<Claim>, sink: Option<Addr>,
                                         tokens: Txid -> Option<TokenTx>, txid: Txid, floID: Addr)
    requires forall j :: 0 <= j < |cs| ==> cs[j].txid != txid || cs[j].floID != floID
    ensures forall j :: 0 <= j < |Receipts(cfg, cs, flo, sink, tokens)| ==>
      Receipts(cfg, cs, flo, sink, tokens)[j].txid != txid || Receipts(cfg, cs, flo, sink, tokens)[j].floID != floID
  {
    if cs != [] {
      ReceiptsAvoid(cfg, cs[..|cs| - 1], flo, sink, tokens, txid, floID);
    }
  }

  /**
   * One more claim of the pass: its receipt, decided on the FLO claims as
   * they stand after the earlier receipts, is the one it would get before
   * them, because claim keys are unique.
   */
  lemma ReceiptsStep(cfg: Config, cs: seq<Claim>, i: nat, flo: seq<Claim>, sink: Option<Addr>, tokens: Txid -> Option<TokenTx>)
    requires i < |cs| && UniqueClaims(cs)
    ensures Receipts(cfg, cs[..i + 1], flo, sink, tokens) ==
      Receipts(cfg, cs[..i], flo, sink, tokens) + Receipt(cfg, cs[i], flo + Receipts(cfg, cs[..i], flo, sink, tokens), sink, tokens)
    ensures flo + Receipts(cfg, cs[..i + 1], flo, sink, tokens) ==
      (flo + Receipts(cfg, cs[..i], flo, sink, tokens)) + Receipt(cfg, cs[i], flo + Receipts(cfg, cs[..i], flo, sink, tokens), sink, tokens)
  {
    assert cs[..i + 1][..i] == cs[..i];
    var rs := Receipts(cfg, cs[..i], flo, sink, tokens);
    forall j | 0 <= j < |cs[..i]| ensures cs[..i][j].txid != cs[i].txid || cs[..i][j].floID != cs[i].floID {
      assert cs[..i][j] == cs[j];
    }
    ReceiptsAvoid(cfg, cs[..i], flo, sink, tokens, cs[i].txid, cs[i].floID);
    FindClaimAvoid(flo, rs, cs[i].txid, cs[i].floID);
  }

  /** Rows that all miss a key do not change whether the key is claimed. */
  lemma FindClaimAvoid(flo: seq<Claim>, rs: seq<Claim>, txid: Txid, floID: Addr)
    requires forall j :: 0 <= j < |rs| ==> rs[j].txid != txid || rs[j].floID != floID
    ensures FindClaim(flo + rs, txid, floID).None? == FindClaim(flo, txid, floID).None?
  {
    if FindClaim(flo, txid, floID).None? {
      forall k | 0 <= k < |flo + rs| ensures (flo + rs)[k].txid != txid || (flo + rs)[k].floID != floID {
        if k < |flo| {
          assert (flo + rs)[k] == flo[k];
        } else {
          assert (flo + rs)[k] == rs[k - |flo|];
        }
      }
    } else {
      var k := FindClaim(flo, txid, floID).value;
      assert (flo + rs)[k] == flo[k];
    }
  }

  /** Receipts depend on the FLO claims only through their keys. */
  lemma {:induction false} ReceiptsSameKeys(cfg: Config, cs: seq<Claim>, flo: seq<Claim>, flo': seq<Claim>,
                                            sink: Option<Addr>, tokens: Txid -> Option<TokenTx>)
    requires |flo| == |flo'|
    requires forall j :: 0 <= j < |flo| ==> flo[j].txid == flo'[j].txid && flo[j].floID == flo'[j].floID
    ensures Receipts(cfg, cs, flo, sink, tokens) == Receipts(cfg, cs, flo', sink, tokens)
  {
    if cs != [] {
      ReceiptsSameKeys(cfg, cs[..|cs| - 1], flo, flo', sink, tokens);
      var c := cs[|cs| - 1];
      assert FindClaim(flo, c.txid, c.floID).None? == FindClaim(flo', c.txid, c.floID).None?;
    }
  }
}
