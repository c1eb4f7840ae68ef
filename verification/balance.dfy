/**
 * The Balance display: shows the connected address's simulated ANJ balance,
 * derived from the same session-store entry the Voting panel reads, and
 * renders nothing while no wallet is connected.
 */
module Balance {
  import opened Wrappers
  import opened Session
  import Voting

  /**
   * The display's derivation: the stored credit times the exchange rate when
   * the entry exists, 0 when it does not.
   */
  function DisplayBalance(entries: map<string, real>, address: string): (anj: real)
    ensures StorageKey(address) !in entries ==> anj == 0.0
    ensures NonNegative(entries) ==> anj >= 0.0
  {
    var saved := if StorageKey(address) in entries then Some(entries[StorageKey(address)]) else None;
    if saved.Some? then saved.value * AnjPerCredit else 0.0
  }

  /** For every store, the display and the Voting panel derive the same balance. */
  lemma AgreesWithVotingPanel(entries: map<string, real>, address: string)
    ensures DisplayBalance(entries, address) == Voting.VotingBalance(entries, address)
  {
  }

  /** A stored credit of 10 shows as 50 ANJ; a missing entry shows as 0 ANJ. */
  lemma DisplayExamples(entries: map<string, real>, address: string)
    ensures DisplayBalance(entries[StorageKey(address) := 10.0], address) == 50.0
    ensures DisplayBalance(entries - {StorageKey(address)}, address) == 0.0
  {
  }

  /** Only the connected address's own key is read. */
  lemma DisplayReadsOwnKeyOnly(e1: map<string, real>, e2: map<string, real>, address: string)
    requires StorageKey(address) in e1 <==> StorageKey(address) in e2
    requires StorageKey(address) in e1 ==> e1[StorageKey(address)] == e2[StorageKey(address)]
    ensures DisplayBalance(e1, address) == DisplayBalance(e2, address)
  {
  }

  /** The display's refresh: recomputed when a wallet is connected, kept otherwise. */
  function Refreshed(entries: map<string, real>, activeAddress: Option<string>, current: real): real
  {
    if IsActive(activeAddress) then DisplayBalance(entries, activeAddress.value) else current
  }

  /** Refreshing twice with the same store gives the same balance as refreshing once. */
  lemma RefreshIdempotent(entries: map<string, real>, activeAddress: Option<string>, current: real)
    ensures Refreshed(entries, activeAddress, Refreshed(entries, activeAddress, current))
         == Refreshed(entries, activeAddress, current)
  {
  }

  class BalanceDisplay {
    const store: SessionStore
    var activeAddress: Option<string>
    var balance: real

    ghost predicate Valid()
      reads this, store
    {
      NonNegative(store.entries) && balance >= 0.0
    }

    /** Mounting the display: balance 0, then the initial refresh. */
    constructor (store: SessionStore, activeAddress: Option<string>)
      ensures this.store == store && this.activeAddress == activeAddress
      ensures balance == Refreshed(store.entries, activeAddress, 0.0)
      ensures NonNegative(store.entries) ==> Valid()
    {
      this.store := store;
      this.activeAddress := activeAddress;
      balance := 0.0;
      new;
      Refresh();
    }

    /** Reads the connected address's entry and sets the balance; does nothing without a wallet. */
    method Refresh()
      modifies this`balance
      ensures balance == Refreshed(store.entries, activeAddress, old(balance))
      ensures old(Valid()) ==> Valid()
    {
      if IsActive(activeAddress) {
        var saved := store.GetItem(StorageKey(activeAddress.value));
        if saved.Some? {
          balance := saved.value * AnjPerCredit;
        } else {
          balance := 0.0;
        }
      }
    }

    /** The wallet connects, switches or disconnects; the display refreshes for the new address. */
    method ChangeAddress(address: Option<string>)
      modifies this`activeAddress, this`balance
      ensures activeAddress == address
      ensures balance == Refreshed(store.entries, address, old(balance))
      ensures old(Valid()) ==> Valid()
    {
      activeAddress := address;
      Refresh();
    }

    /** What the display renders: nothing without a wallet, otherwise the current balance. */
    function View(): (shown: Option<real>)
      reads this
      ensures shown.None? <==> !IsActive(activeAddress)
      ensures shown.Some? ==> shown.value == balance
    {
      if IsActive(activeAddress) then Some(balance) else None
    }
  }

  /**
   * A vote's delayed callback followed by the same-page signal reaching both
   * components: after it, a panel and a display connected to the voter's
   * address both show the captured balance minus the cost.
   */
  method SettleAndNotify(panel: Voting.VotingPanel, display: BalanceDisplay, pending: Voting.PendingVote)
    requires panel.store == display.store
    modifies panel.store, panel`balance, panel`submitting, display`balance
    ensures panel.store.entries == Voting.ApplySettlement(old(panel.store.entries), pending)
    ensures panel.submitting == None
    ensures panel.balance == Voting.Refreshed(panel.store.entries, panel.activeAddress, old(panel.balance))
    ensures display.balance == Refreshed(display.store.entries, display.activeAddress, old(display.balance))
    ensures display.activeAddress == Some(pending.address)
            ==> display.balance == pending.balanceAtClick - pending.cost as real
    ensures panel.activeAddress == Some(pending.address)
            ==> panel.balance == pending.balanceAtClick - pending.cost as real
    ensures old(panel.Valid()) && old(display.Valid()) ==> panel.Valid() && display.Valid()
  {
    panel.SettleVote(pending);
    display.Refresh();
    if display.activeAddress == Some(pending.address) {
      AgreesWithVotingPanel(display.store.entries, pending.address);
    }
  }
}
