# Punctum auction view: phase reconciliation

A model of the auction phase reconciliation in the `MetaConnect` component of
the Punctum auction front end. Two pollers feed the component. One brings the
contract's auction tuple (next token id, highest bidder, highest bid, end
block) roughly every 1000 ms. The other brings the chain's block height every
6000 ms. Each arrival overwrites its own stored value and re-runs two effects.
Those effects derive `auctionEnded`, `auctionStarted` and `auctionStatus`. The
render uses them to choose between the bid form, the settle button and
nothing. Around this sit the guard rules of the handlers: bid and settle need
a contract, and the token-URI lookup needs a non-zero token id and a contract.
`accountsChanged` guards web3 creation and the height timer on `web3` and
`currentBlock` as its closure captured them, which in the program are always
null. The model tests the current fields instead.

Modules:

- `Wrappers` (wrappers.dfy): `Option`, for the component's nullable state.
- `Phase` (phase.dfy): the tuple, status and view datatypes. `Classify` is the
  reference classification of an end block against a height. `PhaseEffect`
  and `EndedEffect` are the two effects and `Reconcile` runs them in order.
  `Step` and `Replay` cover sequences of arrivals. The lemmas state the
  invariant, idempotence and no-derivation-without-inputs properties.
- `Commands` (commands.dfy): the bid value, the bid and settle calls, the
  token-URI guard, the height-timer guard and the offered action.
- `Connect` (connect.dfy): class `MetaConnect`. It holds the component's state
  in mutable fields. Its methods run the effects with the source's sequential
  `if`s, and each is proved against the functions above. It ends with two
  client scenarios, `TimersBeforeFirstTick` and `BoundaryScenario`.

Network, wallet and contract responses are method parameters: the fetched
tuple, height, balance, token URI and the re-read after a bid.

Behaviours of the code that a reader might not expect, modelled as written:

- At `endBlock == height > 0` none of the three branches fires (`>` and `<`
  are both strict), so the previous flags and status remain. The status may
  be a stale "Ends in 1 blocks". A reader might expect an open auction with
  0 blocks left.
- Even when the timer guard tests the current `currentBlock`, as in the
  model, two account notifications before the first height tick leave two
  height intervals running (`Connect.TimersBeforeFirstTick`). In the program
  every successful notification starts one (see "## Left out").
- `bidHandler` and `settleHandler` check only that a contract exists, not the
  phase. Only the render gates them. The bid amount is not checked to be
  positive.

## Model

| member | source | states |
|---|---|---|
| `Phase.Classify` | frontend/src/App.tsx:59-73 | end block 0 is NotStarted; 0 < end < height is Ended; end > height is a countdown of exactly end − height > 0 blocks; end == height is the only case with no branch, each as an if-and-only-if |
| `Phase.Reconcile` | frontend/src/App.tsx:56-75 | without a tuple or with a null/0 height the view is unchanged; otherwise it is NotStarted for end 0 whatever the height, Ended for 0 < end < height, "Ends in end − height" for end > height, and unchanged at end == height; a consistent view stays consistent |
| `Phase.EndedEffectRedundant` | frontend/src/App.tsx:104-108 | the second effect sets `auctionEnded` only where the first effect's Ended branch already did, so both effects together equal the first one |
| `Phase.ReconcileIdempotent` | frontend/src/App.tsx:56-75 | re-running the two effects on the same tuple and height changes nothing |
| `Phase.Step` | frontend/src/App.tsx:50 | a tuple arrival overwrites only the tuple and a height arrival only the height; the view is then re-derived from the latest of both |
| `Phase.ReplayConsistent` | frontend/src/App.tsx:64-73 | after any sequence of tuple and height arrivals the flags are determined by the status, a countdown is positive, and `auctionEnded` and `auctionStarted` are never both true |
| `Phase.InitialReplayConsistent` | frontend/src/App.tsx:40-42 | from the initial values (false, false, "Not Started") every reachable view is consistent |
| `Phase.ReplayWithoutHeight` | frontend/src/App.tsx:57 | while no non-zero height has arrived, no sequence of arrivals changes the view |
| `Phase.ReplayWithoutTuple` | frontend/src/App.tsx:57 | while no tuple has arrived, height arrivals do not change the view |
| `Phase.RepeatIdempotent` | frontend/src/App.tsx:56-75 | the same tuple or the same height arriving twice in a row leaves the state as after the first |
| `Phase.BoundaryKeepsView` | frontend/src/App.tsx:64-73 | at end block == height > 0 the flags and status keep their previous values |
| `Commands.BidValue` | frontend/src/App.tsx:167 | the bid value is a whole multiple of 10^18 that converts back to exactly the bid amount |
| `Commands.BidCall` | frontend/src/App.tsx:162-168 | a bid is submitted iff a contract exists, from the current account, with value 10^18 × bidAmount |
| `Commands.SettleCall` | frontend/src/App.tsx:176-184 | closing the auction is submitted iff a contract exists |
| `Commands.TokenUriKey` | frontend/src/App.tsx:77-86 | the token URI is looked up iff a tuple exists, its next token id is non-zero and a contract exists, and then for that id |
| `Commands.StartsHeightTimer` | frontend/src/App.tsx:141 | a height timer is started iff `currentBlock` is null or 0 |
| `Commands.Offered` | frontend/src/App.tsx:216-227 | the bid form exactly when started; on a consistent view the bid form iff a countdown, the settle button iff Ended, nothing iff NotStarted |
| `Commands.OfferedAfterReplay` | frontend/src/App.tsx:216-227 | after any sequence of arrivals the render offers the bid form iff the status is a countdown and the settle button iff it is Ended |
| `Connect.MetaConnect.constructor` | frontend/src/App.tsx:32-43 | the initial state: no account, balance, error, web3, contract, tuple or height; bid amount 0; view (false, false, NotStarted); no timers and no web3 created |
| `Connect.MetaConnect.RunPhaseEffect` | frontend/src/App.tsx:56-75 | the three sequential branches leave exactly the view `PhaseEffect` gives |
| `Connect.MetaConnect.RunEndedEffect` | frontend/src/App.tsx:104-108 | the second effect leaves exactly the view `EndedEffect` gives |
| `Connect.MetaConnect.UpdateTuple` | frontend/src/App.tsx:48-50 | storing a tuple and re-running both effects is one `Step` and keeps the view consistent |
| `Connect.MetaConnect.UpdateHeight` | frontend/src/App.tsx:142-148 | storing a height and re-running both effects is one `Step` and keeps the view consistent |
| `Connect.MetaConnect.LookupTokenUri` | frontend/src/App.tsx:77-86 | the lookup key is `TokenUriKey`; `tokenURI` becomes the fetched URI only when a lookup happens and the read succeeds, and is unchanged otherwise |
| `Connect.MetaConnect.AccountsChanged` | frontend/src/App.tsx:128-156 | the account is always adopted; if the balance request fails, the connect error is shown and web3, balance and timers are untouched; otherwise the balance is stored, web3 exists afterwards, one web3 instance is created iff none existed before and one timer is added iff `currentBlock` was falsy; the contract exists whenever web3 does |
| `Connect.MetaConnect.SetBidAmount` | frontend/src/App.tsx:219 | the bid amount becomes the parsed input |
| `Connect.MetaConnect.BidHandler` | frontend/src/App.tsx:162-174 | the submitted call is `BidCall`; an accepted bid is followed by one tuple `Step` with the re-read tuple; without a contract nothing changes |
| `Connect.MetaConnect.SettleHandler` | frontend/src/App.tsx:176-184 | the submitted call is `SettleCall`, with no re-read |
| `Connect.MetaConnect.OfferedAction` | frontend/src/App.tsx:216-227 | the render's choice is `Offered`: the bid form iff the status is a countdown, the settle button iff it is Ended |

## Left out

- JSX rendering, MUI components and styling (App.tsx:186-251, 284-300): UI only. The gating at 216-227 is kept as `Offered`.
- `connectHandler` and `chainChanged` (App.tsx:110-126, 158-160): wallet requests and event subscriptions are foreign I/O. Their outcome enters through `AccountsChanged`'s parameters. Every `chainChanged` re-runs `connectHandler`, which registers `accountsChanged` again (App.tsx:112), so after a chain change each account notification runs the handler once per registration. The model runs it once per call.
- `eth_requestAccounts`, `eth_getBalance` and `eth_blockNumber` requests, and `ethers.formatEther`: foreign I/O and library formatting. The balance arrives already formatted, or as None when the request fails.
- web3 and contract construction and the `.call()` / `.send()` invocations (App.tsx:49, 81, 96-100, 165, 180, 273): network calls. A contract is a flag set when web3 exists after an account change. Call results are parameters. A failing `send` is a bid with no re-read.
- `setInterval` timers and async interleaving: scheduling is not modelled. Height intervals are only counted. The auction-state interval that starts again for every rebuilt contract (App.tsx:45-54) is not counted.
- Connect.MetaConnect.AccountsChanged: reads the current `web3` and `currentBlock` fields, not the values its closure captured. The closure is the one `connectHandler` registers (App.tsx:112, 118), and `connectHandler` is reachable only while no account is set (App.tsx:202-204), before `web3` or `currentBlock` can be set (App.tsx:129, 136-148). So in the program the captured values are always null. Every successful call there creates a new web3 instance (App.tsx:137) and starts another height interval (App.tsx:142); the guards at App.tsx:136 and 141 never block. The model creates web3 only when none exists and starts a timer only while no non-zero height has arrived. Its counts are therefore lower bounds on the program's.
- `parseInt` on raw strings (App.tsx:58, 79, 147, 219, 291), NaN results, and JavaScript's coercion when comparing the raw tuple field at App.tsx:105: inputs are already-parsed naturals or integers.
- `BidValue`: computed as exact integer multiplication. The source multiplies JavaScript doubles, which lose precision for large amounts.
- `Phase.Status`: the status is a datatype, not the concatenated string "Ends in N blocks". Number-to-text formatting is not modelled.
- `AdminPanel` (App.tsx:254-301) and its `isAdmin` URL substring gate (App.tsx:30): these forward raw fields to a contract call.
- The token-URI effect re-runs by itself on every tuple or contract change (App.tsx:86). Here `UpdateTuple`, `BidHandler` and `AccountsChanged` do not trigger `LookupTokenUri`; a caller runs it as a separate step after them. Its result does not feed into the phase.
- The `tokenURI` logging effect (App.tsx:88-92) and all `console.log` calls: logging only.
