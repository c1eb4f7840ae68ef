/**
 * The AnjoliDAO application contract: one state field, `token_id`, that is 0
 * until `create` mints the ANJ asset, and a `donate` call that pays ANJ back
 * at 10 ANJ per ALGO.  A failed assertion aborts the call, so a rejected call
 * changes nothing.  Inner transactions the contract submits are appended to
 * an abstract log; the ledger's asset-id allocation is a parameter.
 */
module AnjoliDao {
  import opened Wrappers

  type UInt64 = x: nat | x < 0x1_0000_0000_0000_0000

  /** Ids the ledger gives to newly created assets are never 0. */
  type AssetId = x: UInt64 | x > 0 witness 1

  type Address = string

  const TokenName: string := "Anjoli Token"
  const TokenUnit: string := "ANJ"
  const TokenTotal: UInt64 := 10_000_000
  const TokenDecimals: UInt64 := 0

  /** MicroAlgos per ANJ token: 1 ALGO (1_000_000 microAlgos) buys 10 ANJ. */
  const MicroAlgosPerToken: UInt64 := 100_000

  /** Inner transactions the contract submits. */
  datatype InnerTxn =
    | AssetConfig(assetName: string, unitName: string, total: UInt64, decimals: UInt64,
                  manager: Address, reserve: Address, fee: UInt64, createdAsset: AssetId)
    | AssetTransfer(xferAsset: UInt64, assetReceiver: Address, assetAmount: UInt64, fee: UInt64)

  /** The all-zero Algorand address: the value of a payment field an application call does not carry. */
  const ZeroAddress: Address := "AAAAAAAAAAAAAAAAAAAAAAAAAAAAAAAAAAAAAAAAAAAAAAAAAAAAY5HFKQ"

  /**
   * Why `donate` rejects the call: one reason per assertion, in the order they
   * are checked, and last the ledger refusing a transfer larger than the
   * application's holding of the token.
   */
  datatype DonateError = TokenNotCreated | PaymentNotToApp | DonationTooSmall | InsufficientHolding

  /** The ANJ mint as `create` configures it; `created` is the id the ledger assigns. */
  function MintToken(app: Address, created: AssetId): (txn: InnerTxn)
    ensures txn.AssetConfig? && txn.createdAsset == created
    ensures txn.total == 10_000_000 && txn.decimals == 0 && txn.fee == 0
    ensures txn.manager == app && txn.reserve == app
  {
    AssetConfig(TokenName, TokenUnit, TokenTotal, TokenDecimals, app, app, 0, created)
  }

  /** ANJ paid for a donation of `amount` microAlgos, by integer division. */
  function TokensFor(amount: UInt64): (tokens: UInt64)
    ensures tokens * MicroAlgosPerToken <= amount < (tokens + 1) * MicroAlgosPerToken
  {
    amount / MicroAlgosPerToken
  }

  /** The two bounds determine the token count. */
  lemma TokensForUnique(amount: UInt64, tokens: nat)
    requires tokens * MicroAlgosPerToken <= amount < (tokens + 1) * MicroAlgosPerToken
    ensures tokens == TokensFor(amount)
  {
  }

  /** A larger donation never buys fewer tokens. */
  lemma TokensMonotone(a1: UInt64, a2: UInt64)
    requires a1 <= a2
    ensures TokensFor(a1) <= TokensFor(a2)
  {
  }

  /** No tokens below 100_000 microAlgos; 1 ALGO buys 10 tokens. */
  lemma TokensExamples()
    ensures forall a: UInt64 :: TokensFor(a) == 0 <==> a < MicroAlgosPerToken
    ensures TokensFor(1_000_000) == 10
    ensures TokensFor(99_999) == 0 && TokensFor(199_999) == 1
  {
  }

  /**
   * The checks and result of `donate`: the token must exist, the payment must
   * be to the application, and the amount must buy at least one token; then
   * one transfer of that many tokens of the stored asset goes to the sender,
   * which the ledger executes only if the application holds that many.
   */
  function Donation(tokenId: UInt64, holding: nat, app: Address, sender: Address, amount: UInt64, receiver: Address)
    : (r: Result<InnerTxn, DonateError>)
    ensures r.Success? <==> tokenId != 0 && receiver == app && amount >= MicroAlgosPerToken
                            && TokensFor(amount) <= holding
    ensures r.Failure? && tokenId == 0 ==> r.error == TokenNotCreated
    ensures r.Failure? && tokenId != 0 && receiver != app ==> r.error == PaymentNotToApp
    ensures r.Failure? && tokenId != 0 && receiver == app && amount < MicroAlgosPerToken
            ==> r.error == DonationTooSmall
    ensures r.Failure? && tokenId != 0 && receiver == app && amount >= MicroAlgosPerToken
            ==> r.error == InsufficientHolding
    ensures r.Success? ==> r.value.AssetTransfer? && r.value.xferAsset == tokenId
                           && r.value.assetReceiver == sender && r.value.fee == 0
                           && 1 <= r.value.assetAmount <= holding
                           && r.value.assetAmount * MicroAlgosPerToken <= amount
                           < (r.value.assetAmount + 1) * MicroAlgosPerToken
  {
    if tokenId == 0 then Failure(TokenNotCreated)
    else if receiver != app then Failure(PaymentNotToApp)
    else
      var tokens := TokensFor(amount);
      if tokens == 0 then Failure(DonationTooSmall)
      else if tokens > holding then Failure(InsufficientHolding)
      else Success(AssetTransfer(tokenId, sender, tokens, 0))
  }

  /**
   * An application call carries no payment fields: its amount reads as 0 and
   * its receiver as the zero address.  `donate` reads both from its own call,
   * so a donation made as a bare application call is always rejected.
   */
  lemma BareAppCallDonationFails(tokenId: UInt64, holding: nat, app: Address, sender: Address)
    requires app != ZeroAddress
    ensures Donation(tokenId, holding, app, sender, 0, ZeroAddress).Failure?
    ensures tokenId != 0 ==> Donation(tokenId, holding, app, sender, 0, ZeroAddress).error == PaymentNotToApp
  {
  }

  /** Units of `asset` the contract has transferred out. */
  function Sent(log: seq<InnerTxn>, asset: UInt64): nat
  {
    if log == [] then 0
    else
      var t := log[|log| - 1];
      Sent(log[..|log| - 1], asset) + (if t.AssetTransfer? && t.xferAsset == asset then t.assetAmount else 0)
  }

  /** Units of `asset` the contract has minted; a new asset's whole supply goes to its creator. */
  function Minted(log: seq<InnerTxn>, asset: UInt64): nat
  {
    if log == [] then 0
    else
      var t := log[|log| - 1];
      Minted(log[..|log| - 1], asset) + (if t.AssetConfig? && t.createdAsset == asset then t.total else 0)
  }

  /** Appending one inner transaction adds its own units to the two running totals. */
  lemma AppendCounts(log: seq<InnerTxn>, t: InnerTxn, asset: UInt64)
    ensures Sent(log + [t], asset) == Sent(log, asset) + (if t.AssetTransfer? && t.xferAsset == asset then t.assetAmount else 0)
    ensures Minted(log + [t], asset) == Minted(log, asset) + (if t.AssetConfig? && t.createdAsset == asset then t.total else 0)
  {
    assert (log + [t])[..|log|] == log;
  }

  /** The application's holding of `asset`: what it minted less what it sent. */
  function Holding(log: seq<InnerTxn>, asset: UInt64): (held: nat)
    ensures Sent(log, asset) <= Minted(log, asset) ==> held + Sent(log, asset) == Minted(log, asset)
  {
    if Sent(log, asset) <= Minted(log, asset) then Minted(log, asset) - Sent(log, asset) else 0
  }

  /** No mint in the log created `id`: the ledger gives every new asset an id never used before. */
  predicate FreshAsset(log: seq<InnerTxn>, id: UInt64)
  {
    forall i :: 0 <= i < |log| && log[i].AssetConfig? ==> log[i].createdAsset != id
  }

  /** An asset the contract never minted has no minted units. */
  lemma {:induction false} FreshAssetNotMinted(log: seq<InnerTxn>, id: UInt64)
    requires FreshAsset(log, id)
    ensures Minted(log, id) == 0
  {
    if log != [] {
      var n := |log| - 1;
      assert forall i :: 0 <= i < n ==> log[..n][i] == log[i];
      FreshAssetNotMinted(log[..n], id);
    }
  }

  /** Each asset is minted at most once, so at most the token's total supply exists of it. */
  ghost predicate SupplyBounded(log: seq<InnerTxn>)
  {
    forall a: UInt64 :: Minted(log, a) <= TokenTotal
  }

  /** The contract never sends more of an asset than it minted. */
  ghost predicate Conserved(log: seq<InnerTxn>)
  {
    forall a: UInt64 :: Sent(log, a) <= Minted(log, a)
  }

  /**
   * Right after `create` the application holds the 10_000_000 minted units of
   * the stored asset, so a donation asking for more (2_000_000 ALGO buys
   * 20_000_000 ANJ) is rejected.
   */
  lemma DonationBeyondSupplyFails(app: Address, sender: Address, firstId: AssetId, secondId: AssetId)
    requires firstId != secondId
    ensures Holding([MintToken(app, firstId), MintToken(app, secondId)], secondId) == TokenTotal
    ensures Donation(secondId, Holding([MintToken(app, firstId), MintToken(app, secondId)], secondId),
                     app, sender, 2_000_000_000_000, app) == Failure(InsufficientHolding)
  {
    var log := [MintToken(app, firstId), MintToken(app, secondId)];
    AppendCounts([], log[0], secondId);
    AppendCounts([log[0]], log[1], secondId);
    assert [log[0]] + [log[1]] == log;
  }

  /** The id created by the most recent mint in the log, or 0 if nothing was minted. */
  function LastMinted(log: seq<InnerTxn>): UInt64
  {
    if log == [] then 0
    else if log[|log| - 1].AssetConfig? then log[|log| - 1].createdAsset
    else LastMinted(log[..|log| - 1])
  }

  /** A non-zero LastMinted is the id of some mint in the log. */
  lemma {:induction false} LastMintedIsMinted(log: seq<InnerTxn>)
    requires LastMinted(log) != 0
    ensures exists j :: 0 <= j < |log| && log[j].AssetConfig? && log[j].createdAsset == LastMinted(log)
  {
    var n := |log| - 1;
    if !log[n].AssetConfig? {
      LastMintedIsMinted(log[..n]);
      var j :| 0 <= j < n && log[..n][j].AssetConfig? && log[..n][j].createdAsset == LastMinted(log[..n]);
      assert log[j] == log[..n][j];
    }
  }

  /** LastMinted is 0 exactly when nothing has been minted. */
  lemma {:induction false} LastMintedZeroIffNoMint(log: seq<InnerTxn>)
    ensures LastMinted(log) == 0 <==> forall i :: 0 <= i < |log| ==> !log[i].AssetConfig?
  {
    if log != [] {
      var n := |log| - 1;
      LastMintedZeroIffNoMint(log[..n]);
      assert forall i :: 0 <= i < n ==> log[..n][i] == log[i];
    }
  }

  /** Every transfer in the log sends an asset minted earlier in the log. */
  ghost predicate TransfersMintedAssets(log: seq<InnerTxn>)
  {
    forall i :: 0 <= i < |log| && log[i].AssetTransfer? ==>
      exists j :: 0 <= j < i && log[j].AssetConfig? && log[j].createdAsset == log[i].xferAsset
  }

  class AnjoliDAO {
    const appAddress: Address
    var tokenId: UInt64
    var log: seq<InnerTxn>

    /**
     * `token_id` is the id of the last mint, only minted assets are ever
     * transferred, never more of one than was minted, and no asset has more
     * than one mint's supply.
     */
    ghost predicate Valid()
      reads this
    {
      tokenId == LastMinted(log) && TransfersMintedAssets(log) && Conserved(log) && SupplyBounded(log)
    }

    /** A new application: no token yet, nothing submitted. */
    constructor (appAddress: Address)
      ensures this.appAddress == appAddress && tokenId == 0 && log == []
      ensures Valid()
    {
      this.appAddress := appAddress;
      tokenId := 0;
      log := [];
    }

    /**
     * Mints the ANJ asset twice with identical parameters and stores the id of
     * the second mint.  Nothing prevents calling it again later, which mints anew.
     * The two ids are the ones the ledger assigns: new, and different from each other.
     */
    method Create(firstId: AssetId, secondId: AssetId)
      requires firstId != secondId && FreshAsset(log, firstId) && FreshAsset(log, secondId)
      modifies this
      ensures log == old(log) + [MintToken(appAddress, firstId), MintToken(appAddress, secondId)]
      ensures tokenId == secondId
      ensures old(Valid()) ==> Valid()
    {
      log := log + [MintToken(appAddress, firstId)];
      var result := MintToken(appAddress, secondId);
      log := log + [result];
      tokenId := result.createdAsset;
      assert log[..|log| - 1][..|log| - 2] == old(log);
      if old(Valid()) {
        var first := MintToken(appAddress, firstId);
        FreshAssetNotMinted(old(log), firstId);
        FreshAssetNotMinted(old(log), secondId);
        forall a: UInt64 ensures Sent(log, a) <= Minted(log, a) <= TokenTotal {
          AppendCounts(old(log), first, a);
          AppendCounts(old(log) + [first], result, a);
        }
      }
    }

    /**
     * A donation call from `sender` carrying `amount` microAlgos paid to
     * `receiver`.  On success exactly one transfer is submitted; on failure
     * nothing changes.  `token_id` never changes.
     */
    method Donate(sender: Address, amount: UInt64, receiver: Address) returns (r: Result<InnerTxn, DonateError>)
      modifies this`log
      ensures r == Donation(tokenId, Holding(old(log), tokenId), appAddress, sender, amount, receiver)
      ensures old(Valid()) ==> Holding(old(log), tokenId) <= TokenTotal
      ensures r.Success? ==> log == old(log) + [r.value]
      ensures r.Failure? ==> log == old(log)
      ensures old(Valid()) ==> Valid()
    {
      if tokenId == 0 {
        return Failure(TokenNotCreated);
      }
      if receiver != appAddress {
        return Failure(PaymentNotToApp);
      }
      var tokens := amount / MicroAlgosPerToken;
      if tokens == 0 {
        return Failure(DonationTooSmall);
      }
      if tokens > Holding(log, tokenId) {
        return Failure(InsufficientHolding);
      }
      var txn := AssetTransfer(tokenId, sender, tokens, 0);
      ghost var before := log;
      log := log + [txn];
      r := Success(txn);
      if tokenId == LastMinted(before) && TransfersMintedAssets(before) && Conserved(before) && SupplyBounded(before) {
        forall a: UInt64 ensures Sent(log, a) <= Minted(log, a) <= TokenTotal {
          AppendCounts(before, txn, a);
        }
        assert log[..|log| - 1] == before;
        LastMintedIsMinted(before);
        forall i | 0 <= i < |log| && log[i].AssetTransfer?
          ensures exists j :: 0 <= j < i && log[j].AssetConfig? && log[j].createdAsset == log[i].xferAsset
        {
          if i < |before| {
            var j :| 0 <= j < i && before[j].AssetConfig? && before[j].createdAsset == before[i].xferAsset;
            assert log[j] == before[j];
          } else {
            var j :| 0 <= j < |before| && before[j].AssetConfig? && before[j].createdAsset == tokenId;
            assert log[j] == before[j];
          }
        }
      }
    }

    /** The read-only getter: the stored asset id, 0 before `create`. */
    method GetAssetId() returns (id: UInt64)
      ensures id == tokenId
    {
      id := tokenId;
    }
  }
}
