/**
 * The Voting panel: a fixed table of polls, one selected option per poll,
 * a simulated ANJ balance derived from the session store, and votes that
 * "spend" that balance by rewriting the voter's stored credit after a delay.
 *
 * The delayed part of a vote (the timer callback) is a separate step: BeginVote
 * returns the values the callback captures, and SettleVote runs the callback.
 * The same-page refresh signal the callback broadcasts is a direct call to Refresh.
 */
module Voting {
  import opened Wrappers
  import opened Session

  /** A static poll definition; the deadline is display text only. */
  datatype Poll = Poll(id: int, question: string, options: seq<string>, cost: nat, deadline: string)

  /** The polls the panel shows. */
  const Polls: seq<Poll> := [
    Poll(1, "What should be the theme for the next community event?",
         ["Cultural Heritage", "Modern Tech Fair", "Eco-Friendly Initiative"],
         2, "Closes: September 25, 2025"),
    Poll(2, "Which charity should receive next month's treasury donation?",
         ["Local Education Fund", "Animal Welfare Shelter", "Global Health Org"],
         5, "Closes: October 5, 2025")
  ]

  /** Poll ids are distinct, every poll costs something, and every option is a non-empty label. */
  lemma PollsWellFormed()
    ensures forall i, j :: 0 <= i < j < |Polls| ==> Polls[i].id != Polls[j].id
    ensures forall i :: 0 <= i < |Polls| ==> Polls[i].cost > 0
    ensures forall i, o :: 0 <= i < |Polls| && o in Polls[i].options ==> o != ""
  {
  }

  // ---------------------------------------------------------------------------
  // Enablement and the vote guard

  /** `selectedOptions[pollId]` is truthy: an option is recorded and it is not the empty string. */
  predicate HasSelection(selections: map<int, string>, pollId: int)
  {
    pollId in selections && selections[pollId] != ""
  }

  /**
   * The safeguard at the top of the vote handler.  A vote it accepts can only
   * write back a non-negative credit.
   */
  function CanVote(activeAddress: Option<string>, balance: real, selections: map<int, string>, pollId: int, cost: nat)
    : (accepted: bool)
    ensures accepted ==> SettledCredit(balance, cost) >= 0.0
  {
    IsActive(activeAddress) && balance >= cost as real && HasSelection(selections, pollId)
  }

  /**
   * The vote button's `disabled` attribute. It does not look at the wallet
   * address.  The button is disabled whenever the poll's options are, and an
   * enabled button can only lead to a non-negative credit.
   */
  function VoteButtonDisabled(submitting: Option<int>, balance: real, selections: map<int, string>, pollId: int, cost: nat)
    : (disabled: bool)
    ensures OptionsDisabled(submitting, pollId) ==> disabled
    ensures !disabled ==> SettledCredit(balance, cost) >= 0.0
  {
    submitting == Some(pollId) || balance < cost as real || !HasSelection(selections, pollId)
  }

  /** The `disabled` attribute of a poll's option inputs: they are locked for at most one poll at a time. */
  function OptionsDisabled(submitting: Option<int>, pollId: int): (disabled: bool)
    ensures disabled ==> forall q :: q != pollId ==> submitting != Some(q)
  {
    submitting == Some(pollId)
  }

  /**
   * With a wallet connected, the button is enabled exactly when the guard would
   * accept the vote and that poll is not already being submitted.
   */
  lemma ButtonEnabledIffGuardAccepts(activeAddress: Option<string>, submitting: Option<int>, balance: real,
                                     selections: map<int, string>, pollId: int, cost: nat)
    requires IsActive(activeAddress)
    ensures !VoteButtonDisabled(submitting, balance, selections, pollId, cost)
            <==> CanVote(activeAddress, balance, selections, pollId, cost) && !OptionsDisabled(submitting, pollId)
  {
  }

  /**
   * The button's `disabled` attribute ignores the wallet: for every poll in the
   * table, with no wallet connected, a covering (stale) balance and a
   * selection, the button is enabled while the handler's guard rejects the vote.
   */
  lemma ButtonEnabledWithoutWallet(i: nat)
    requires i < |Polls|
    ensures var poll := Polls[i];
            var selections := map[poll.id := poll.options[0]];
            !VoteButtonDisabled(None, poll.cost as real, selections, poll.id, poll.cost)
            && !CanVote(None, poll.cost as real, selections, poll.id, poll.cost)
  {
  }

  // ---------------------------------------------------------------------------
  // Balance derivation

  /**
   * The panel's derived balance: the stored credit of `address`, or 0 when the
   * key is absent, times the exchange rate.  Only that address's key is read.
   */
  function VotingBalance(entries: map<string, real>, address: string): (anj: real)
    ensures StorageKey(address) !in entries ==> anj == 0.0
    ensures NonNegative(entries) ==> anj >= 0.0
  {
    (if StorageKey(address) in entries then entries[StorageKey(address)] else 0.0) * AnjPerCredit
  }

  /** Entries under other keys never affect an address's derived balance. */
  lemma VotingBalanceReadsOwnKeyOnly(e1: map<string, real>, e2: map<string, real>, address: string)
    requires StorageKey(address) in e1 <==> StorageKey(address) in e2
    requires StorageKey(address) in e1 ==> e1[StorageKey(address)] == e2[StorageKey(address)]
    ensures VotingBalance(e1, address) == VotingBalance(e2, address)
  {
  }

  /** The balance after the panel's refresh: recomputed when a wallet is connected, kept otherwise. */
  function Refreshed(entries: map<string, real>, activeAddress: Option<string>, current: real): real
  {
    if IsActive(activeAddress) then VotingBalance(entries, activeAddress.value) else current
  }

  /** Refreshing twice with the same store gives the same balance as refreshing once. */
  lemma RefreshIdempotent(entries: map<string, real>, activeAddress: Option<string>, current: real)
    ensures Refreshed(entries, activeAddress, Refreshed(entries, activeAddress, current))
         == Refreshed(entries, activeAddress, current)
  {
  }

  // ---------------------------------------------------------------------------
  // Settlement

  /** What the vote's timer callback captured when the vote was accepted. */
  datatype Settlement = Settlement(address: string, balanceAtClick: real, cost: nat)

  /** A callback is only ever scheduled after the guard accepted the vote. */
  type PendingVote = s: Settlement | s.address != "" && s.cost as real <= s.balanceAtClick
    witness Settlement("0", 0.0, 0)

  /** The credit written back: the remaining balance converted through the exchange rate. */
  function SettledCredit(balanceAtClick: real, cost: nat): (credit: real)
    ensures credit * AnjPerCredit == balanceAtClick - cost as real
    ensures cost as real <= balanceAtClick ==> credit >= 0.0
  {
    (balanceAtClick - cost as real) / AnjPerCredit
  }

  /**
   * The store after a settlement: the voter's key holds the settled credit,
   * so the voter's derived balance is exactly the captured balance minus the
   * cost, and every other key is as it was.
   */
  function ApplySettlement(entries: map<string, real>, s: Settlement): (after: map<string, real>)
    ensures after.Keys == entries.Keys + {StorageKey(s.address)}
    ensures forall k :: k in entries && k != StorageKey(s.address) ==> after[k] == entries[k]
    ensures VotingBalance(after, s.address) == s.balanceAtClick - s.cost as real
    ensures NonNegative(entries) && s.cost as real <= s.balanceAtClick ==> NonNegative(after)
  {
    entries[StorageKey(s.address) := SettledCredit(s.balanceAtClick, s.cost)]
  }

  /**
   * Two votes accepted against the same balance and settled one after the other:
   * the second write overwrites the first, so only the second cost is deducted.
   */
  lemma OverlappingVotesOverwrite(entries: map<string, real>, address: string, balance: real, cost1: nat, cost2: nat)
    ensures VotingBalance(ApplySettlement(ApplySettlement(entries, Settlement(address, balance, cost1)),
                                          Settlement(address, balance, cost2)), address)
            == balance - cost2 as real
  {
  }

  /** Total cost of a run of votes. */
  function TotalCost(costs: seq<nat>): nat
  {
    if costs == [] then 0 else costs[0] + TotalCost(costs[1..])
  }

  /**
   * The store after votes of the given costs, each one clicked after the
   * previous one settled and the panel refreshed.
   */
  function SettleInTurn(entries: map<string, real>, address: string, costs: seq<nat>): map<string, real>
    decreases |costs|
  {
    if costs == [] then entries
    else SettleInTurn(ApplySettlement(entries, Settlement(address, VotingBalance(entries, address), costs[0])),
                      address, costs[1..])
  }

  /** Repeated votes deduct their costs exactly: no drift accumulates. */
  lemma {:induction false} SettleInTurnDeductsTotal(entries: map<string, real>, address: string, costs: seq<nat>)
    ensures VotingBalance(SettleInTurn(entries, address, costs), address)
            == VotingBalance(entries, address) - TotalCost(costs) as real
    decreases |costs|
  {
    if costs != [] {
      var next := ApplySettlement(entries, Settlement(address, VotingBalance(entries, address), costs[0]));
      SettleInTurnDeductsTotal(next, address, costs[1..]);
    }
  }

  // ---------------------------------------------------------------------------
  // The component

  class VotingPanel {
    const store: SessionStore
    var activeAddress: Option<string>
    var balance: real
    var selections: map<int, string>
    var submitting: Option<int>

    /** Stored credits and the displayed balance are never negative. */
    ghost predicate Valid()
      reads this, store
    {
      NonNegative(store.entries) && balance >= 0.0
    }

    /** Mounting the panel: empty selections, nothing submitting, and the initial refresh. */
    constructor (store: SessionStore, activeAddress: Option<string>)
      ensures this.store == store && this.activeAddress == activeAddress
      ensures balance == Refreshed(store.entries, activeAddress, 0.0)
      ensures selections == map[] && submitting == None
      ensures NonNegative(store.entries) ==> Valid()
    {
      this.store := store;
      this.activeAddress := activeAddress;
      selections := map[];
      submitting := None;
      balance := 0.0;
      new;
      Refresh();
    }

    /** Reads the connected address's credit and sets the balance; does nothing without a wallet. */
    method Refresh()
      modifies this`balance
      ensures balance == Refreshed(store.entries, activeAddress, old(balance))
      ensures old(Valid()) ==> Valid()
    {
      if IsActive(activeAddress) {
        var saved := store.GetItem(StorageKey(activeAddress.value));
        balance := (if saved.Some? then saved.value else 0.0) * AnjPerCredit;
      }
    }

    /** The wallet connects, switches or disconnects; the panel refreshes for the new address. */
    method ChangeAddress(address: Option<string>)
      modifies this`activeAddress, this`balance
      ensures activeAddress == address
      ensures balance == Refreshed(store.entries, address, old(balance))
      ensures old(Valid()) ==> Valid()
    {
      activeAddress := address;
      Refresh();
    }

    /** Picks an option for one poll; every other poll keeps its selection. */
    method ChooseOption(pollId: int, option: string)
      modifies this`selections
      ensures selections == old(selections)[pollId := option]
    {
      selections := selections[pollId := option];
    }

    /**
     * The synchronous part of the vote handler.  A rejected vote changes
     * nothing; an accepted one marks the poll as submitting and returns what
     * the delayed callback captures.
     */
    method BeginVote(pollId: int, cost: nat) returns (pending: Option<PendingVote>)
      modifies this`submitting
      ensures pending.Some? <==> CanVote(activeAddress, balance, selections, pollId, cost)
      ensures pending.Some? ==> pending.value == Settlement(activeAddress.value, balance, cost)
                                && submitting == Some(pollId)
      ensures pending.None? ==> unchanged(this) && unchanged(store)
    {
      if !IsActive(activeAddress) || balance < cost as real || !HasSelection(selections, pollId) {
        return None;
      }
      submitting := Some(pollId);
      pending := Some(Settlement(activeAddress.value, balance, cost));
    }

    /**
     * The delayed callback: writes the remaining credit computed from the
     * captured balance (the store is not re-read), refreshes, and clears the
     * submitting marker whichever poll it belongs to.
     */
    method SettleVote(pending: PendingVote)
      modifies store, this`balance, this`submitting
      ensures store.entries == ApplySettlement(old(store.entries), pending)
      ensures balance == Refreshed(store.entries, activeAddress, old(balance))
      ensures activeAddress == Some(pending.address) ==> balance == pending.balanceAtClick - pending.cost as real
      ensures submitting == None
      ensures old(Valid()) ==> Valid()
    {
      var remaining := pending.balanceAtClick - pending.cost as real;
      store.SetItem(StorageKey(pending.address), remaining / AnjPerCredit);
      Refresh();
      submitting := None;
    }
  }
}
