# DurgaDao: simulated vote accounting and the AnjoliDAO donation contract

This project is a verified Dafny model of the three pieces of DurgaDao that have
behaviour of their own.

- **Voting panel** (`voting.dfy`, module `Voting`). Users vote in a fixed table of polls and pay
  with a simulated ANJ balance. The balance is the connected address's stored
  "donation-equivalent" credit times 5. A vote is guarded: a wallet must be
  connected, the balance must cover the poll's cost, and an option must be
  selected. An accepted vote marks its poll as submitting. After a delay it writes
  `(balance − cost) / 5` back under the voter's key, refreshes, and clears the marker.
- **Balance display** (`balance.dfy`, module `Balance`). It shows the same derived balance.
  An absent entry shows as 0. Nothing is rendered while no wallet is connected.
- **AnjoliDAO contract** (`anjoli_dao.dfy`, module `AnjoliDao`). It is a small state machine
  over `token_id`. `create` mints the ANJ asset twice and keeps the second id.
  `donate` checks that the token exists, that the payment goes to the application,
  and that the amount buys at least one token. It then sends `amount div 100_000`
  ANJ to the sender. The ledger executes that transfer only if the application
  still holds that many tokens; the model tracks the holding from the log. `get_asset_id` reads `token_id`.

`session.dfy` (module `Session`) holds the state the two components share. This is the
session store as a `SessionStore` object with a `map<string, real>`, and the key
`anjali-dao-donation-<address>`. A wallet counts as connected when the address is
present and non-empty, which is JavaScript truthiness. `wrappers.dfy` holds `Option` and `Result`.

Timer and event handling:
- The vote's `setTimeout` callback is split into two steps. `BeginVote` returns a
  `PendingVote`, which holds the values the callback captures. `SettleVote` runs the callback.
- A `PendingVote` is a subset type. Its cost never exceeds its captured balance,
  because a callback is scheduled only after the guard accepts.
- The `storageUpdated` window event is a direct call to `Refresh`.
  `Balance.SettleAndNotify` delivers it to both components.

Three behaviours of the code are kept as written:
- The vote button's `disabled` attribute does not check the wallet address. Only the
  handler's safeguard does. `ButtonEnabledIffGuardAccepts` relates the two when a
  wallet is connected.
- Overlapping votes on different polls are reproduced, not fixed. Each settlement
  writes a credit computed from the balance captured at click time. The second write
  therefore overwrites the first (`OverlappingVotesOverwrite`). The marker is a single
  value that any settlement clears.
- Nothing in the modelled code credits the store after a donation. The store starts
  empty and only settlements write to it. Under this regime, stored credits and
  displayed balances stay non-negative (the `Valid` predicates).

## Model

| member | source | states |
|---|---|---|
| `Voting.PollsWellFormed` | projects/DurgaDao-frontend/src/components/Voting.tsx:7-22 | the two polls have distinct ids, positive costs (2 and 5) and non-empty option labels |
| `Voting.CanVote` | projects/DurgaDao-frontend/src/components/Voting.tsx:53 | the vote handler's guard (wallet connected, balance ≥ cost, an option selected); a vote it accepts can only write back a non-negative credit |
| `Voting.VoteButtonDisabled` | projects/DurgaDao-frontend/src/components/Voting.tsx:112 | the button's disabled condition (poll submitting, balance < cost, or no selection); it is disabled whenever the poll's options are, and an enabled button can only lead to a non-negative credit |
| `Voting.OptionsDisabled` | projects/DurgaDao-frontend/src/components/Voting.tsx:102 | a poll's options are disabled while that poll is submitting, and for at most one poll at a time |
| `Voting.ButtonEnabledIffGuardAccepts` | projects/DurgaDao-frontend/src/components/Voting.tsx:112 | with a wallet connected, the vote button is enabled iff the handler's guard accepts and that poll is not submitting (the condition that also disables its options, line 102) |
| `Voting.ButtonEnabledWithoutWallet` | projects/DurgaDao-frontend/src/components/Voting.tsx:112 | for every poll in the table, with no wallet but a covering balance and a selection, the button is enabled while the guard (line 53) rejects |
| `Voting.VotingBalance` | projects/DurgaDao-frontend/src/components/Voting.tsx:33-35 | the panel's balance is 0 when the address has no entry and is never negative when the stored credits are not |
| `Voting.VotingBalanceReadsOwnKeyOnly` | projects/DurgaDao-frontend/src/components/Voting.tsx:33-34 | two stores that agree on the address's own key give the same balance, whatever other keys hold |
| `Voting.RefreshIdempotent` | projects/DurgaDao-frontend/src/components/Voting.tsx:31-37 | refreshing twice with an unchanged store gives the balance of one refresh |
| `Voting.SettledCredit` | projects/DurgaDao-frontend/src/components/Voting.tsx:62-63 | the written credit times 5 is exactly captured balance − cost, and it is non-negative when the cost was covered |
| `Voting.ApplySettlement` | projects/DurgaDao-frontend/src/components/Voting.tsx:62-66 | settlement adds or overwrites only the voter's key, leaves every other key unchanged, makes the voter's balance captured balance − cost, and keeps all credits non-negative |
| `Voting.OverlappingVotesOverwrite` | projects/DurgaDao-frontend/src/components/Voting.tsx:61-66 | two votes accepted against the same balance and settled in turn leave balance − second cost, not balance − both costs |
| `Voting.SettleInTurnDeductsTotal` | projects/DurgaDao-frontend/src/components/Voting.tsx:61-69 | votes settled one after another, each re-reading the refreshed balance, deduct exactly the sum of their costs (no drift) |
| `Voting.VotingPanel.constructor` | projects/DurgaDao-frontend/src/components/Voting.tsx:24-46 | mounting gives no selections, no submitting poll, and the balance of the initial refresh (0 without a wallet) |
| `Voting.VotingPanel.Refresh` | projects/DurgaDao-frontend/src/components/Voting.tsx:31-37 | with a wallet, balance becomes stored credit × 5 (0 if absent); without one it is unchanged; non-negativity is kept |
| `Voting.VotingPanel.ChangeAddress` | projects/DurgaDao-frontend/src/components/Voting.tsx:40-46 | a new wallet address triggers a refresh for that address |
| `Voting.VotingPanel.ChooseOption` | projects/DurgaDao-frontend/src/components/Voting.tsx:48-50 | sets the selection for that poll only; every other poll keeps its selection |
| `Voting.VotingPanel.BeginVote` | projects/DurgaDao-frontend/src/components/Voting.tsx:52-59 | a vote is accepted iff a wallet is connected, balance ≥ cost and an option is selected; a rejected vote changes nothing; an accepted one marks the poll submitting and captures address, balance and cost |
| `Voting.VotingPanel.SettleVote` | projects/DurgaDao-frontend/src/components/Voting.tsx:61-73 | writes (captured balance − cost)/5 under the voter's key only, refreshes (so a still-connected voter sees balance − cost), clears the submitting marker, and keeps credits non-negative |
| `Session.StorageKey` | projects/DurgaDao-frontend/src/components/Voting.tsx:33 | the key is the fixed prefix followed by the address, so the address can be read back from it |
| `Session.StorageKeyInjective` | projects/DurgaDao-frontend/src/components/Balance.tsx:13 | two addresses share a store key iff they are equal |
| `Session.SessionStore.GetItem` | projects/DurgaDao-frontend/src/components/Balance.tsx:14 | a lookup yields a value iff the key is present, and then that key's value |
| `Session.SessionStore.SetItem` | projects/DurgaDao-frontend/src/components/Voting.tsx:66 | a write replaces one key and leaves all others |
| `Balance.DisplayBalance` | projects/DurgaDao-frontend/src/components/Balance.tsx:14-18 | the displayed balance is 0 when the entry is absent and non-negative when the stored credits are |
| `Balance.DisplayExamples` | projects/DurgaDao-frontend/src/components/Balance.tsx:14-18 | a stored 10 shows as 50; a missing entry shows as 0 |
| `Balance.DisplayReadsOwnKeyOnly` | projects/DurgaDao-frontend/src/components/Balance.tsx:13 | entries under other addresses never affect the result |
| `Balance.AgreesWithVotingPanel` | projects/DurgaDao-frontend/src/components/Balance.tsx:13-18 | for every store and address, the display's derivation equals the Voting panel's (Voting.tsx:33-35) |
| `Balance.RefreshIdempotent` | projects/DurgaDao-frontend/src/components/Balance.tsx:11-21 | refreshing twice with an unchanged store gives the balance of one refresh |
| `Balance.BalanceDisplay.constructor` | projects/DurgaDao-frontend/src/components/Balance.tsx:6-35 | mounting starts from 0 and applies the initial refresh |
| `Balance.BalanceDisplay.Refresh` | projects/DurgaDao-frontend/src/components/Balance.tsx:11-21 | with a wallet, balance becomes stored × 5 or 0 when absent; without one the store is not read and the balance is unchanged |
| `Balance.BalanceDisplay.ChangeAddress` | projects/DurgaDao-frontend/src/components/Balance.tsx:25-35 | a new wallet address triggers a refresh for that address |
| `Balance.BalanceDisplay.View` | projects/DurgaDao-frontend/src/components/Balance.tsx:37-49 | nothing is rendered iff no wallet is connected; otherwise the current balance is shown |
| `Balance.SettleAndNotify` | projects/DurgaDao-frontend/src/components/Voting.tsx:66-69 | after a settlement and the refresh signal, both listeners have refreshed for their own address (unchanged without a wallet), and a panel or display connected to the voter shows captured balance − cost |
| `AnjoliDao.AnjoliDAO.constructor` | projects/DurgaDao-contracts/smart_contracts/anjoli_dao/contract.py:11-13 | a fresh contract has token_id 0 and has submitted nothing |
| `AnjoliDao.MintToken` | projects/DurgaDao-contracts/smart_contracts/anjoli_dao/contract.py:23-31 | the mint has total 10_000_000, decimals 0, fee 0, and the application as manager and reserve |
| `AnjoliDao.AnjoliDAO.Create` | projects/DurgaDao-contracts/smart_contracts/anjoli_dao/contract.py:16-44 | given the two new ids the ledger assigns, appends two identical-parameter mints and stores the id of the second; every asset still has at most one mint's supply |
| `AnjoliDao.FreshAssetNotMinted` | projects/DurgaDao-contracts/smart_contracts/anjoli_dao/contract.py:34-44 | an asset id no logged mint created has no minted units |
| `AnjoliDao.TokensFor` | projects/DurgaDao-contracts/smart_contracts/anjoli_dao/contract.py:62 | tokens·100_000 ≤ amount < (tokens+1)·100_000 |
| `AnjoliDao.TokensForUnique` | projects/DurgaDao-contracts/smart_contracts/anjoli_dao/contract.py:62 | those bounds determine the token count |
| `AnjoliDao.TokensMonotone` | projects/DurgaDao-contracts/smart_contracts/anjoli_dao/contract.py:62 | a larger amount never gives fewer tokens |
| `AnjoliDao.TokensExamples` | projects/DurgaDao-contracts/smart_contracts/anjoli_dao/contract.py:61-63 | zero tokens iff amount < 100_000; 1_000_000 gives 10 |
| `AnjoliDao.Donation` | projects/DurgaDao-contracts/smart_contracts/anjoli_dao/contract.py:46-71 | succeeds iff token_id ≠ 0, the receiver is the application, amount ≥ 100_000 and the application holds the tokens due; each failure names the first failing check; success is one transfer of at least one and at most the held number of tokens of asset token_id to the sender, fee 0 |
| `AnjoliDao.BareAppCallDonationFails` | projects/DurgaDao-contracts/smart_contracts/anjoli_dao/contract.py:55-63 | a call whose amount is 0 and whose receiver is the zero address is always rejected, with PaymentNotToApp once the token exists |
| `AnjoliDao.DonationBeyondSupplyFails` | projects/DurgaDao-contracts/smart_contracts/anjoli_dao/contract.py:34-71 | right after create the application holds exactly 10_000_000 units of the stored asset, so a donation due 20_000_000 tokens is rejected |
| `AnjoliDao.AnjoliDAO.Donate` | projects/DurgaDao-contracts/smart_contracts/anjoli_dao/contract.py:46-71 | a failed call leaves the log unchanged, a successful one appends exactly its transfer; token_id never changes; only minted assets are transferred, and never more of one than was minted; the stored asset's holding never exceeds 10_000_000 |
| `AnjoliDao.LastMintedIsMinted` | projects/DurgaDao-contracts/smart_contracts/anjoli_dao/contract.py:44 | a non-zero stored id is the id of some mint the contract submitted |
| `AnjoliDao.LastMintedZeroIffNoMint` | projects/DurgaDao-contracts/smart_contracts/anjoli_dao/contract.py:12-13 | under the contract invariant, token_id is 0 exactly when nothing has been minted |
| `AnjoliDao.AnjoliDAO.GetAssetId` | projects/DurgaDao-contracts/smart_contracts/anjoli_dao/contract.py:73-76 | returns token_id and changes no state |

## Left out

- projects/DurgaDao-frontend/src/Home.tsx (opt-in and donation flows): these are calls into the wallet and ledger SDKs, `alert` and page reloads. Their only logic is the connected-wallet and positive-amount guard.
- Floating point: the store and balances are exact `real`s. IEEE rounding of `× 5`, `/ 5` and `Math.round` is not modelled.
- String conversion: the store holds numbers directly. `Number(...)`, `toString`, `NaN` from malformed entries and `toLocaleString` are not modelled. The Voting panel's `|| '0'` and the display's empty-entry branch both reduce to "absent gives 0".
- React rendering, hooks, listener registration and cleanup, and `alert` messages are not modelled. The refresh signal is an explicit `Refresh` call.
- The 1500 ms delay is not modelled. Settlement is a separate step the caller runs, in any order relative to other steps.
- The contract does not model ARC-4 dispatch, inner-transaction fees beyond the recorded `fee` field, asset-id allocation (ids are parameters of `Create`, required to be new and distinct as the ledger guarantees), the application's minimum balance, or receiver opt-in.
- AnjoliDao.Holding counts only what the contract minted and sent. ANJ that other accounts send back to the application is not added to its holding.
- The `donate` fields `Txn.sender`, `Txn.amount` and `Txn.receiver` are parameters, taken as the code reads them. On Algorand these fields belong to the application call itself. An application call carries no payment, so its amount is 0 and its receiver is the zero address. The donation flow in projects/DurgaDao-frontend/src/Home.tsx:72-101 sends the payment as a separate transaction. So as deployed, `donate` can never succeed: the receiver check always fails (`BareAppCallDonationFails`). This follows from reading the code and was not executed.
- ConnectWallet and the style sheets are purely UI.
