# Wallet screen navigation and transaction history, modelled in Dafny

This project models the logic of a small mobile-style wallet UI written in React:

- **The root component's state machine** (`src/App.jsx`). Its eight state fields are:
  - the active screen;
  - the transaction type, amount and note;
  - the selected group, the (never set) expense and the selected bill;
  - the confetti flag.

  Three handlers change them:
  - *back* follows a fixed parent map;
  - *continue* dispatches on the active screen and on the data the screen hands over;
  - *complete* shows the processing screen and schedules a timer that later returns to the wallet.
- **The transaction history screen** (`src/screens/HistoryScreen.jsx`):
  - the type filter;
  - the icon of each transaction type;
  - the row title fallback chain;
  - the optional `+` prefix, note, details, fee and counterparty lines;
  - the open/close state of the detail panel.

Files:

- `js_value.dfy`, module `JsValue`: the JavaScript values the handlers inspect. It covers truthiness, `===` against string literals and `a || b`. It also covers property reads, which throw on `null`/`undefined`, and the object spread `{ ...v, k: x }`.
- `app.dfy`, module `App`: the root component.
  - The pure part is the specification: the `State` datatype, one step function per handler, `Run` over a sequence of events, and the invariant `Inv` of every reachable state with lemmas about it.
  - The class `WalletApp` holds the same fields as mutable state. Its methods update them one statement at a time, as the handlers do. Each method is proved to produce exactly the next state of the matching step function. `Inv` is proved of every state `Run` reaches from `Initial`. So it holds of an object built by the constructor and changed only through its handler methods. No Dafny statement ties an object to an event sequence, and the fields are public.
- `history.dfy`, module `History`: the history screen's pure functions and the class `HistoryScreen`, which holds its `filter` and `selectedTransaction` state.
- `wrappers.dfy`, module `Wrappers`: `Option`.

Modelling choices:

- **Untyped handler data.** The continue handler receives untyped data, so `data` is a JavaScript `Value`.
- **TypeErrors.** A property read on `null`/`undefined` throws a TypeError. In every branch of the handlers, that read happens before the first setter or store call. So a throw is modelled as "nothing changed" (`Threw`, or `ok == false` in the methods).
- **The group/bill store.** The store (`useGroups`) is not part of this model. Its calls (`addGroup`, `addBill`, `updateBill`, `deleteBill`) are appended, in order, to an `effects` log.
- **Timers.** The two `setTimeout` callbacks become a `TimerFired` event and a count of pending timers. A timer fires only when one is pending. Real time and the 2000 ms delay are not modelled.
- **Back reads the rendered screen.** React handlers read the state of the render that created them. So `handleBack`'s eight `if`s all test the screen at entry, and at most one of them navigates. The `Back` method keeps that screen in a local before testing.
- **What the code does where a reader might expect otherwise.** The model follows the code in each case:
  - The back map is a tree, not a line: `qr` and `review` both lead back to `note`, and `expense`, `splitDetails` and `newGroup` all lead back to `group`.
  - The wallet's "Transaction History" button hands `'history'` to the continue handler. That token, like `'deposit'` and `'cashout'`, opens the amount screen with that transaction type. The root component never shows the history screen.
  - A completion timer still pending when the user has closed the processing screen by hand will return the user to the wallet from whatever screen they are on (`StaleTimerInterruptsNextFlow`).
- **Constants.** `App.Initial` holds the eight `useState` values of `src/App.jsx:17-25`, with an empty log and no timers. `History.MockTransactions` holds the four records of `src/screens/HistoryScreen.jsx:4-68`, and `History.FilterIds` the five button ids of `:245-250`.
- **Icon literals.** The history icon literals are stored double-encoded in the source file. The model keeps the exact code points as they stand there.

## Model

| member | source | states |
|---|---|---|
| `JsValue.Or` | src/App.jsx:93 | JavaScript's `or` operator returns the left operand when it is truthy and the right one otherwise; the result is truthy iff either operand is |
| `JsValue.Get` | src/App.jsx:74-78 | a property read is defined only on non-nullish values; on an object it gives the own property or undefined, on booleans and numbers undefined |
| `JsValue.SpreadWith` | src/App.jsx:86 | `{ ...v, k: x }` is an object with `k` set to `x`, every other own property of `v` kept, and no other key |
| `App.Parent` | src/App.jsx:44-54 | the back map: no screen is its own parent, processing is nobody's parent, and only wallet and processing have none |
| `App.BackStep` | src/App.jsx:44-54 | handleBack changes only the screen, and moves it iff the screen is neither wallet nor processing |
| `App.ContinueStep` | src/App.jsx:64-117 | handleContinue can throw only on group, expense and splitDetails; review, QR and processing ignore it |
| `App.FromWallet` | src/App.jsx:66-72 | the token becomes the transaction type; group iff the token is 'split', else amount; nothing else changes |
| `App.FromGroup` | src/App.jsx:73-84 | throws iff the data is null/undefined; the screen becomes newGroup iff `data.id` is 'new', and then nothing else changes; any other group is selected, its attached bill opens splitDetails iff truthy (and is selected), otherwise expense with the old bill kept; apart from the group, bill and screen nothing changes; no store call |
| `App.FromNewGroup` | src/App.jsx:85-89 | appends one `addGroup` of the very object it selects, whose keys are the data's own keys and `bills`; shows expense; nothing else changes |
| `App.FromExpense` | src/App.jsx:90-98 | throws iff the data or the selected group is null/undefined; otherwise appends one `addBill` of `NewBill(data)` on the group's id and shows group, nothing else changing |
| `App.FromSplitDetails` | src/App.jsx:99-108 | throws iff a bill is selected but no group; otherwise appends one call iff a bill is selected, then confetti, processing and one more timer |
| `App.FromAmount` | src/App.jsx:109-111 | keeps the amount and shows note; nothing else changes |
| `App.FromNote` | src/App.jsx:112-115 | keeps the note; shows qr iff the type is 'request', else review; nothing else changes |
| `App.CompleteStep` | src/App.jsx:119-127 | handleComplete: processing, confetti on and one more pending timer; nothing else changes |
| `App.TimerStep` | src/App.jsx:105-108 | with no timer pending nothing happens; otherwise wallet, confetti off and one timer fewer; nothing else changes |
| `App.UpdateSelectedBillStep` | src/App.jsx:205 | throws iff the group or the bill is null/undefined; otherwise appends one `updateBill` on the selected group's id and the selected bill's id with the screen's data, and changes nothing else |
| `App.Step` | src/App.jsx:129-215 | the events the rendered screens send; each one appends at most one store call and never rewrites the log |
| `App.Run` | src/App.jsx:129-215 | a sequence of events appends at most one store call per event and never rewrites the log |
| `App.Inv` | src/App.jsx:73-127 | the invariant: a group on expense/splitDetails, a truthy bill on splitDetails, a pending timer behind confetti/processing, `expense` null |
| `App.BackFollowsParent` | src/App.jsx:44-54 | back changes only the screen, moves it to the parent, and leaves wallet and processing unchanged |
| `App.BackUndoesContinue` | src/App.jsx:44-84 | after a successful continue from wallet, amount, note or group, back returns to that same screen |
| `App.BackReachesWallet` | src/App.jsx:44-54 | from every screen except processing, at most three presses of back reach the wallet, changing nothing but the screen |
| `App.WalletButtons` | src/App.jsx:66-72 | every wallet token (send, request, split, deposit, cashout, history) becomes the transaction type; 'split' goes to group and all others to amount; nothing else changes |
| `App.GroupPick` | src/App.jsx:73-84 | id 'new' goes to newGroup and leaves the selection unchanged; any other group is selected and goes to splitDetails iff a bill is attached (and selects it), else to expense; only the group, bill and screen change; no store call |
| `App.NewGroupIsAddedAndSelected` | src/App.jsx:85-89 | continue from newGroup adds exactly one group, with `bills` empty, the form's fields kept and no other key; selects that same object; opens expense |
| `App.NewBill` | src/App.jsx:91-96 | the new bill has exactly amount, description, date and settled; its description is never empty and defaults to 'No description'; date is 'Today'; settled is false |
| `App.SplitExpenseFlow` | src/App.jsx:90-98 | wallet → split → existing group → expense returns to group after exactly one `addBill` on that group's id |
| `App.PaymentFlow` | src/App.jsx:109-115 | wallet → token → amount → note ends on qr iff the token is 'request', else on review; only the screen and the three values change |
| `App.SplitContinueSettlesBill` | src/App.jsx:99-104 | in every reachable state, continue from splitDetails never throws; it records exactly one update of the selected bill with `settled` true, its other fields kept and no other key, then shows confetti and processing |
| `App.SplitContinueIsCompletionPlusSettle` | src/App.jsx:99-127 | continue from splitDetails equals `handleComplete` apart from the log, which grows by one entry iff a bill is selected |
| `App.TimerAlwaysReturnsToWallet` | src/App.jsx:123-126 | a pending timer turns the confetti off, goes to wallet from any screen and consumes one pending timer, changing nothing else |
| `App.ProcessingAlwaysEnds` | src/App.jsx:103-108 | in every reachable state on processing or with confetti on, the next timer event reaches wallet with confetti off |
| `App.StaleTimerInterruptsNextFlow` | src/App.jsx:119-127 | after a completion and a manual close, a new send reaches the amount screen, and the old timer then moves it back to wallet |
| `App.StepPreservesInv` | src/App.jsx:73-108 | every event preserves the invariant: a group on expense/splitDetails, a truthy bill on splitDetails, a pending timer behind confetti/processing, `expense` null |
| `App.RunPreservesInv` | src/App.jsx:17-127 | any sequence of events preserves the invariant |
| `App.ReachableSatisfiesInv` | src/App.jsx:17-25 | every state reached from the initial `useState` values satisfies the invariant |
| `App.SplitUpdateNeverThrows` | src/App.jsx:205 | in every reachable splitDetails state, the screen's bill update never throws on `selectedGroup.id` or `selectedBill.id` |
| `App.ContinueThrowsOnlyOnMissingData` | src/App.jsx:73-101 | in reachable states continue throws iff group or expense receives null/undefined, so the reads of `selectedGroup.id` and `selectedBill.id` never throw; their values may still be undefined |
| `App.ProcessingLabel` | src/App.jsx:173 | the processing label is 'Sending' iff the type is 'send', otherwise 'Requesting' |
| `App.WalletApp.constructor` | src/App.jsx:17-25 | the initial state: wallet, 'send', null amount, empty note, no group, expense or bill, no confetti, no calls, no timers |
| `App.WalletApp.Navigate` | src/App.jsx:39-42 | sets the screen and nothing else |
| `App.WalletApp.Back` | src/App.jsx:44-54 | the eight tests on the screen at entry give exactly the parent-map step, so at most one navigation happens |
| `App.WalletApp.Continue` | src/App.jsx:64-117 | dispatching on the screen at entry gives exactly the continue step; ok is false iff it throws; review, QR and processing are left unchanged |
| `App.WalletApp.ContinueFromWallet` | src/App.jsx:66-72 | stores the token as the transaction type, then shows group for 'split' and amount otherwise |
| `App.WalletApp.ContinueFromGroup` | src/App.jsx:73-84 | throws on null/undefined data; 'new' only navigates; otherwise selects the group, and its bill if one is attached |
| `App.WalletApp.ContinueFromNewGroup` | src/App.jsx:85-89 | logs `addGroup` of the data with empty bills, selects that object, shows expense |
| `App.WalletApp.ContinueFromExpense` | src/App.jsx:90-98 | throws on missing data or group; otherwise logs one `addBill` on the group's id and shows group |
| `App.WalletApp.ContinueFromSplitDetails` | src/App.jsx:99-108 | logs the settled update only when a bill is selected; confetti on, processing, one more pending timer |
| `App.WalletApp.ContinueFromAmount` | src/App.jsx:109-111 | stores the amount and shows note |
| `App.WalletApp.ContinueFromNote` | src/App.jsx:112-115 | stores the note and shows qr for a request, review otherwise |
| `App.WalletApp.Complete` | src/App.jsx:119-127 | confetti on, processing, one more pending timer |
| `App.WalletApp.FireTimer` | src/App.jsx:123-126 | fires iff a timer is pending, then confetti off and wallet |
| `App.WalletApp.CloseQr` | src/App.jsx:167 | goes to wallet and changes nothing else |
| `App.WalletApp.CloseProcessing` | src/App.jsx:175 | goes to wallet and changes nothing else (confetti and its timer stay) |
| `App.WalletApp.DeleteBillOf` | src/App.jsx:56-58 | appends one `deleteBill` call and changes nothing else |
| `App.WalletApp.UpdateBillOf` | src/App.jsx:60-62 | appends one `updateBill` call and changes nothing else |
| `App.WalletApp.UpdateSelectedBill` | src/App.jsx:205 | succeeds iff a group and a bill are selected, then appends one `updateBill` on their ids |
| `History.TransactionIcon` | src/screens/HistoryScreen.jsx:74-82 | the bullet is returned iff the type is none of send/receive/cashout/split; the result is always one of the five glyphs |
| `History.IconsDistinct` | src/screens/HistoryScreen.jsx:74-82 | the four known types have four different glyphs |
| `History.FilterTransactions` | src/screens/HistoryScreen.jsx:106-108 | 'all' returns the list unchanged; any filter returns an ordered subsequence of matching transactions, exactly as many as match, never longer than the input |
| `History.SelectionIsUnique` | src/screens/HistoryScreen.jsx:106-108 | two ordered subsequences of matching transactions that each contain every match are the same list |
| `History.FilterIsTheOrderedSelection` | src/screens/HistoryScreen.jsx:106-108 | any list meeting that description is the filter's result, so the filter keeps exactly the matches in their original order |
| `History.Matches` | src/screens/HistoryScreen.jsx:106-108 | the filter's test: 'all' keeps every transaction, any other filter those of exactly that type |
| `History.OrElse` | src/screens/HistoryScreen.jsx:288-289 | `a || b` on strings: the left one unless it is empty |
| `History.ListTitle` | src/screens/HistoryScreen.jsx:288-289 | the row title: recipient, else sender, else method, else group |
| `History.FirstNonEmpty` | src/screens/HistoryScreen.jsx:288-289 | reference definition: the result is empty iff every candidate is, and otherwise is the candidate before which all are empty |
| `History.ListTitleIsFirstNonEmpty` | src/screens/HistoryScreen.jsx:288-289 | the title chain of recipient, sender, method and group is the first non-empty of the four |
| `History.RowOf` | src/screens/HistoryScreen.jsx:277-311 | a row shows the type's icon and the fallback title; it has a `+` prefix iff the type is 'receive', a note line iff the note is non-empty and a details line iff the details are non-empty |
| `History.DetailOf` | src/screens/HistoryScreen.jsx:128-229 | the panel shows shares iff split and bank details iff cashout. A counterparty appears iff send or receive, headed Recipient/Sender, named by the first non-empty of recipient and sender. A note row appears iff the note is non-empty, a fee row iff the fee is above 0 |
| `History.HistoryScreen.constructor` | src/screens/HistoryScreen.jsx:71-72 | the filter starts at 'all' with nothing selected |
| `History.HistoryScreen.Visible` | src/screens/HistoryScreen.jsx:106-108 | the rows on screen are the whole list under 'all' and otherwise only matching listed transactions |
| `History.HistoryScreen.Panel` | src/screens/HistoryScreen.jsx:321 | the detail panel is shown iff a transaction is selected, and then shows that transaction |
| `History.HistoryScreen.SetFilter` | src/screens/HistoryScreen.jsx:245-254 | a button sets the filter to its own id, which is always one of the five; the selection is kept |
| `History.HistoryScreen.Tap` | src/screens/HistoryScreen.jsx:271 | selects the tapped row's transaction, which is always a listed one |
| `History.HistoryScreen.CloseDetails` | src/screens/HistoryScreen.jsx:119 | clears the selection and keeps the filter |

## Left out

- Markup, styling classes, colours and the `Screen`, `Header` and `Celebrations` components: these are presentation only.
- The other screens the root component renders (amount, note, review, QR, processing, group, expense, split details, new group): their sources are not part of this model. What they hand to the handlers is an arbitrary `Value`. The wallet screen is used only for its six tokens.
- `deleteGroup`: it is passed straight to the group screen, so the arguments it receives are not visible here.
- The group/bill store's own behaviour: its calls are logged, not carried out. So the `groups` list the group screen shows is not modelled.
- `console.log` calls: they have no effect on state.
- Real time, the 2000 ms delay and interleaving: each event is handled after the previous one has been rendered. Timers are a count of pending callbacks that fire one per event.
- Floating-point amounts, `toFixed`, `toLocaleString`, the 15462.10 balance and the date formatting with `Intl.DateTimeFormat`:
  - amounts and fees are whole cents;
  - handler data numbers are integers;
  - dates are not modelled.
- JavaScript property reads that reach the prototype chain, such as `toString`: none of the keys the handlers read (`id`, `selectedBill`, `amount`, `description`) is inherited.
- The order of object keys after a spread: objects are maps.
- Split shares, status colours and category text in the history panel: these are presentation only.
- The contents of a cashout's bank details block (bank name, reference, estimated arrival): `History.Transaction` has no fields for them, so `History.DetailOf` records only whether the block is shown.
- `JsValue.Get`: its contract states the object, boolean and number cases only. The string and array cases (their indices and `length`) are in its body, not its ensures.
