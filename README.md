# Bloom Secure Bonds dashboard: verified model of its interaction logic

The dashboard lets a connected wallet issue, purchase and trade bonds on the
BloomSecureBonds contract, and shows charts whose figures are masked unless
the chart is authorized. Almost all of it is layout. This project models
the three components that have real control flow, and proves properties
of that model:

- **Contract interaction** (`contract_interaction.dfy`, module `Contract`).
  It covers the two form records and their field-by-field updates, and the
  three handlers (`handleIssueBond`, `handlePurchaseBond`,
  `handleExecuteTrade`). Each handler turns the raw form text into a
  `writeContract` request, or refuses because the wallet is not connected,
  or fails because a `BigInt` conversion throws. The module also models
  the per-operation submit buttons (disabled flag, spinner, label) and the
  transaction status panel. The wallet library's hooks (`isPending`, the
  transaction hash, `isLoading` of the receipt watcher) are inputs. Toasts
  are outputs, recorded as values.
- **`BigInt(string)`** (`bigint_parse.dfy`, module `BigIntParse`). This is
  the StringToBigInt operation of ECMA-262, section 7.1.14. StrWhiteSpace is
  trimmed from both ends. What remains may be empty (value 0), a signed
  decimal, or an unsigned `0x`/`0o`/`0b` literal. Anything else throws.
  Parsing the canonical decimal rendering of an integer gives the integer
  back. The rendering is only a right inverse: "007", "+5", " 5" and
  "0x1F" parse, but they are not what the rendering produces.
- **Encrypted chart** (`encrypted_chart.dfy`, module `Chart`). It models the
  `isRevealed` state machine and the display that depends on it.
- **Wallet button** (`wallet_connect.dfy`, module `Wallet`). It models the
  `ready` and `connected` predicates, the three-way view choice, the
  hidden wrapper, and the `isAccredited` flag. That flag is driven by an
  effect and a 1.5 s timer.

What the handlers do with the form text, as the code has it:

- Amounts are passed unscaled, exactly as `BigInt` reads them. A price
  typed as `1.0`, the example the price input shows as its placeholder,
  makes `BigInt` throw, so that purchase fails. An untouched price is `""`,
  which `BigInt` reads as 0, so that purchase is sent with price 0 and
  value 0.
- Nothing is validated beyond `BigInt`. Empty names, zero or negative
  amounts and a malformed seller address all reach `writeContract`.
- The disabled button is the only guard against a second submission.
  Nothing is reset after a submission.
- "submitted!" is shown as soon as `writeContract` returns.

The wallet button renders only while the wallet library reports no
connection (WalletConnect.tsx:21); once that library reports one, the
component returns nothing. Inside the button, the account view needs the
wallet kit's own `connected` (WalletConnect.tsx:53), so it is shown only
when the kit reports a connection while the library's `isConnected` is
false.

## Model

| member | source | states |
|---|---|---|
| BigIntParse.DecimalRoundTrip | src/components/ContractInteraction.tsx:126-129 | `BigInt` applied to the decimal text of any integer (negative, or beyond 2^53) gives back exactly that integer |
| BigIntParse.WhiteSpaceIsZero | src/components/ContractInteraction.tsx:126-129 | an empty form field, or one holding only whitespace, converts to 0 and does not throw |
| BigIntParse.ForeignCharRejected | src/components/ContractInteraction.tsx:151-153 | a character that no integer literal can contain ('.', ',', '_' …), anywhere in the field, makes `BigInt` throw |
| BigIntParse.DecimalFractionRejected | src/components/ContractInteraction.tsx:153 | a field with a decimal point, such as "1.0", is rejected |
| BigIntParse.StringToBigInt | src/components/ContractInteraction.tsx:126-129 | defines `BigInt(text)`: Trim, then the StringIntegerLiteral alternatives of ParseTrimmed; its properties are the round-trip, whitespace and rejection lemmas in this table |
| BigIntParse.ParseTrimmed | src/components/ContractInteraction.tsx:151-155 | defines the literal alternatives tried in order: empty is 0, then `0x`/`0o`/`0b` digits, then a signed or unsigned decimal; DecimalNonDigitRejected and ForeignCharRejected state what it refuses |
| BigIntParse.Trim | src/components/ContractInteraction.tsx:126 | the trimmed text is a slice of the field, in place and in order, with only StrWhiteSpace before and after it, and it starts and ends with non-whitespace; text that already does is left unchanged |
| BigIntParse.TrimOfPadded | src/components/ContractInteraction.tsx:126 | StrWhiteSpace around text with none at its ends is exactly what trimming takes away |
| BigIntParse.PaddedDecimalRoundTrip | src/components/ContractInteraction.tsx:126-129 | an integer's decimal text with any StrWhiteSpace around it (" 5 ") converts to that integer |
| BigIntParse.SpacedFieldExample | src/components/ContractInteraction.tsx:151 | " 5 " typed into the plain-text bond id field converts to 5 |
| BigIntParse.DecimalNonDigitRejected | src/components/ContractInteraction.tsx:126-129 | with no `0x`/`0o`/`0b` prefix, any character after the optional sign that is not a decimal digit makes `BigInt` throw |
| BigIntParse.SignAloneRejected | src/components/ContractInteraction.tsx:126-129 | a field holding only "+" or "-" (around whitespace) makes `BigInt` throw |
| BigIntParse.LetterFieldExample | src/components/ContractInteraction.tsx:151 | "abc" is rejected, although its letters are hex digits |
| BigIntParse.TrimKeepsNonWhiteSpace | src/components/ContractInteraction.tsx:126 | trimming never drops a non-whitespace character |
| Contract.BondFormData.With | src/components/ContractInteraction.tsx:262 | `{...bondForm, f: v}` sets field f to v and leaves every other field unchanged |
| Contract.TradeFormData.With | src/components/ContractInteraction.tsx:360 | `{...tradeForm, f: v}` sets field f to v and leaves every other field unchanged |
| Contract.BondWithLastWins | src/components/ContractInteraction.tsx:262-328 | a second edit of the same field overrides the first, and writing back a field's own value changes nothing |
| Contract.TradeWithLastWins | src/components/ContractInteraction.tsx:359-452 | the same two facts for the trade form |
| Contract.BondWithCommutes | src/components/ContractInteraction.tsx:262-328 | edits of two different fields give the same record in either order |
| Contract.TradeWithCommutes | src/components/ContractInteraction.tsx:359-452 | the same for the trade form |
| Contract.VisibleTradeFields | src/components/ContractInteraction.tsx:352-456 | a trade field has an input on a tab if and only if the tab is Purchase or Trade and, for the seller, the tab is Trade; the Purchase tab thus shows exactly bond id, quantity and price; EditTradeField may only edit such a field |
| Contract.IssueRequest | src/components/ContractInteraction.tsx:118-130 | defines the object handed to `writeIssueBond`, or None when a conversion throws; IssueRequestShape, IssueRequestOfParsed and IssueParseFailure state its properties |
| Contract.PurchaseRequest | src/components/ContractInteraction.tsx:146-155 | defines the object handed to `writePurchaseBond`; PurchaseRequestShape, PurchaseRequestOfParsed and PurchaseParseFailure state its properties |
| Contract.TradeRequest | src/components/ContractInteraction.tsx:171-180 | defines the object handed to `writeExecuteTrade`; TradeRequestShape, TradeRequestOfParsed and TradeParseFailure state its properties |
| Contract.Handle | src/components/ContractInteraction.tsx:111-137 | defines the shape the three handlers share: early return, `try` around building and calling, success or failure toast; NotConnectedMakesNoCall and SubmittedOnlyAfterCall state its properties |
| Contract.IssueBond | src/components/ContractInteraction.tsx:111-137 | defines handleIssueBond on the bond form; IssueCall and IssueParseFailure state its properties |
| Contract.PurchaseBond | src/components/ContractInteraction.tsx:139-162 | defines handlePurchaseBond on the trade form; PurchaseCall, PurchaseParseFailure and PurchaseIgnoresSeller state its properties |
| Contract.ExecuteTrade | src/components/ContractInteraction.tsx:164-187 | defines handleExecuteTrade on the trade form; TradeCall and TradeParseFailure state its properties |
| Contract.RunHandler | src/components/ContractInteraction.tsx:334-471 | defines which handler each submit button runs and on which form; Click and BusySlotBlocksOnlyItself state its properties |
| Contract.NotConnectedMakesNoCall | src/components/ContractInteraction.tsx:111-187 | without a connected wallet, each of the three handlers calls nothing and shows "Please connect your wallet first", whatever the forms hold |
| Contract.SubmittedOnlyAfterCall | src/components/ContractInteraction.tsx:117-136 | "submitted!" is shown if and only if the wallet is connected, every conversion succeeded and `writeContract` returned; every other connected run shows "Failed to …"; a call is made if and only if the wallet is connected and the conversions succeed |
| Contract.IssueParseFailure | src/components/ContractInteraction.tsx:117-136 | if any of the four numeric bond fields fails to convert, nothing is called and "Failed to issue bond" is shown |
| Contract.PurchaseParseFailure | src/components/ContractInteraction.tsx:145-161 | if bond id, quantity or price fails to convert, nothing is called and "Failed to purchase bond" is shown |
| Contract.TradeParseFailure | src/components/ContractInteraction.tsx:170-186 | if bond id, quantity or price fails to convert, nothing is called and "Failed to execute trade" is shown |
| Contract.DecimalFieldFails | src/components/ContractInteraction.tsx:117-186 | any decimal point in the face value (Issue) or the price (Purchase, Trade) means no call and the failure toast, never "submitted!" |
| Contract.IssueCall | src/components/ContractInteraction.tsx:118-130 | for integers typed as decimal text, the call is `issueBond` on CONTRACT_ADDRESS with args [name, symbol, description, faceValue, couponRate, maturityPeriod, totalSupply] in that order, the strings unchanged, the integers unscaled, and no value |
| Contract.PurchaseCall | src/components/ContractInteraction.tsx:146-155 | the call is `purchaseBond(bondId, quantity, price)` with attached value exactly quantity * price |
| Contract.TradeCall | src/components/ContractInteraction.tsx:171-180 | the call is `executeTrade(bondId, quantity, price, seller)`; the seller text goes through unchanged and unchecked; there is no value |
| Contract.IssueRequestOfParsed | src/components/ContractInteraction.tsx:118-130 | once the four fields convert to given integers, the Issue request carries exactly those integers |
| Contract.PurchaseRequestOfParsed | src/components/ContractInteraction.tsx:146-155 | once its three fields convert, the Purchase request carries those integers and their product as value |
| Contract.TradeRequestOfParsed | src/components/ContractInteraction.tsx:171-180 | once its three fields convert, the Trade request carries those integers and the seller text |
| Contract.IssueRequestShape | src/components/ContractInteraction.tsx:118-130 | whatever the form, an Issue request targets CONTRACT_ADDRESS, names `issueBond`, has 7 arguments and attaches no value |
| Contract.PurchaseRequestShape | src/components/ContractInteraction.tsx:146-155 | whatever the form, a Purchase request names `purchaseBond`, has 3 arguments, and its value is the product of its 2nd and 3rd |
| Contract.TradeRequestShape | src/components/ContractInteraction.tsx:171-180 | whatever the form, a Trade request names `executeTrade`, has 4 arguments ending in the seller text, and attaches no value |
| Contract.PurchaseIgnoresSeller | src/components/ContractInteraction.tsx:145-156 | the Purchase handler's result does not depend on the seller field |
| Contract.IssueExample | src/components/ContractInteraction.tsx:118-132 | a filled-in Issue form gives `issueBond("Corp24","CB24","test",1000,5,365,1000)` with no scaling, and "Bond issuance transaction submitted!" |
| Contract.PurchaseExampleFractionalPrice | src/components/ContractInteraction.tsx:146-161 | a Purchase of 10 at price "1.0" fails with "Failed to purchase bond" and makes no call |
| Contract.SubmitButton | src/components/ContractInteraction.tsx:334-347 | the button is disabled if and only if isPending or isConfirming, and it shows the spinner exactly when disabled |
| Contract.ButtonLabelMeaning | src/components/ContractInteraction.tsx:339-346 | the label is the operation name exactly when idle, the pending text exactly when isPending, and "Confirming..." exactly when only the receipt is awaited |
| Contract.SlotsIndependent | src/components/ContractInteraction.tsx:93-109 | an operation's button depends only on its own hook pair |
| Contract.Click | src/components/ContractInteraction.tsx:394-398 | a click runs the handler if and only if the button is enabled, and what it runs is that operation's handler on the form its tab edits |
| Contract.BusySlotBlocksOnlyItself | src/components/ContractInteraction.tsx:458-462 | while a slot is pending or confirming, clicks on it reach no handler, and an idle other slot still runs its handler |
| Contract.StatusRows | src/components/ContractInteraction.tsx:476-499 | one row per present hash, carrying that hash, in the order Issue, Purchase, Trade; the rows are non-empty if and only if the panel condition at :477 holds; ScreenOf places them on the connected screen only |
| Contract.LaterRows | src/components/ContractInteraction.tsx:486-497 | the Purchase row, when its hash is present, comes first and the Trade row last; each row carries its own slot's hash |
| Contract.ScreenOf | src/components/ContractInteraction.tsx:189-499 | the connect prompt is shown if and only if no wallet is connected; otherwise the form of the active tab with the status rows; the status panel is on screen if and only if a wallet is connected and some hash is present, so hashes kept after a disconnect are not shown |
| Contract.ContractInteraction.constructor | src/components/ContractInteraction.tsx:76-91 | the component starts on the Issue tab with both forms empty |
| Contract.ContractInteraction.SelectTab | src/components/ContractInteraction.tsx:226-250 | a tab button changes the active tab and neither form |
| Contract.ContractInteraction.EditBondField | src/components/ContractInteraction.tsx:262-328 | an input edit, which only the Issue tab renders, replaces exactly one bond field; the tab and the trade form stay as they were |
| Contract.ContractInteraction.EditTradeField | src/components/ContractInteraction.tsx:359-452 | an input edit of a field the active tab renders, Purchase or Trade alike, replaces exactly one field of the shared trade form; the rest is unchanged |
| Contract.ContractInteraction.HandleIssueBond | src/components/ContractInteraction.tsx:111-137 | the step-by-step handler (early return, conversions, call, toast) computes exactly IssueBond on the current form |
| Contract.ContractInteraction.HandlePurchaseBond | src/components/ContractInteraction.tsx:139-162 | the step-by-step handler computes exactly PurchaseBond on the shared trade form; a request it makes has three integer arguments and a value of exactly quantity * price |
| Contract.ContractInteraction.HandleExecuteTrade | src/components/ContractInteraction.tsx:164-187 | the step-by-step handler computes exactly ExecuteTrade on the shared trade form; the seller text is passed through |
| Chart.RevealedAfter | src/components/EncryptedChart.tsx:22-60 | defines `isRevealed` after a number of eye-button clicks, starting from `accessLevel === "authorized"`; RevealedAfterParity gives its closed form |
| Chart.RevealedAfterParity | src/components/EncryptedChart.tsx:22-65 | after any number of toggles a chart is revealed if and only if it is authorized and the count is even, so an encrypted chart is never revealed |
| Chart.ToggleTwiceRestores | src/components/EncryptedChart.tsx:60 | two toggles give back the state before |
| Chart.Bars | src/components/EncryptedChart.tsx:24-41 | exactly 12 bars, the i-th delayed by i*100 ms; each is 16px and pulsing if and only if the chart is masked |
| Chart.View | src/components/EncryptedChart.tsx:43-99 | the Encrypted badge shows if and only if the chart is encrypted, and the eye button if and only if it is authorized; value and change text show if and only if revealed, the change in the success tone exactly when positive; the decrypt notice and placeholders show if and only if masked |
| Chart.EncryptedChartStaysMasked | src/components/EncryptedChart.tsx:48-98 | an encrypted chart, in every state it can reach, shows its badge, no toggle, no value, no change, flat bars and the notice |
| Chart.EncryptedChart.constructor | src/components/EncryptedChart.tsx:22 | isRevealed starts true if and only if accessLevel is "authorized" |
| Chart.EncryptedChart.ClickToggle | src/components/EncryptedChart.tsx:56-65 | the eye button, present only on authorized charts, flips isRevealed and keeps the access invariant |
| Chart.EncryptedChart.Render | src/components/EncryptedChart.tsx:43-99 | rendering a valid card of an encrypted chart never shows its value or change |
| Wallet.Ready | src/components/WalletConnect.tsx:33 | defines `ready`; Render and HiddenWrapperShowsConnectButton state its role |
| Wallet.Connected | src/components/WalletConnect.tsx:34-39 | defines `connected`; ConnectedMeaning and SelectView state its properties |
| Wallet.ConnectedMeaning | src/components/WalletConnect.tsx:33-39 | connected holds if and only if mounted, account and chain present, and authenticationStatus absent or 'authenticated'; connected implies ready |
| Wallet.SelectView | src/components/WalletConnect.tsx:53-101 | "Connect Wallet" if and only if not connected; otherwise "Wrong network" if and only if the chain is unsupported; otherwise the account view with the account's name and a badge of Accredited exactly when isAccredited |
| Wallet.BadgeOnlyFromAccreditation | src/components/WalletConnect.tsx:82-92 | the badge of any account view depends only on isAccredited |
| Wallet.Render | src/components/WalletConnect.tsx:21-111 | nothing is rendered if and only if the wallet library reports a connection; otherwise the wrapper is aria-hidden, transparent and inert if and only if not ready |
| Wallet.HiddenWrapperShowsConnectButton | src/components/WalletConnect.tsx:42-63 | a hidden wrapper can only hold the "Connect Wallet" button |
| Wallet.StepAsWritten | src/components/WalletConnect.tsx:12-19 | the effect sets isAccredited false whenever the wallet is not connected or the address is absent |
| Wallet.RunAsWritten | src/components/WalletConnect.tsx:12-19 | defines the effect and the timers as written, run over a sequence of events; AsWrittenStaleTimer is a run that breaks the invariant |
| Wallet.RunWithCleanup | src/components/WalletConnect.tsx:12-19 | defines the same run with the corrected effect; WithCleanupKeepsInvariant and WithCleanupFromStart state its properties |
| Wallet.AsWrittenStaleTimer | src/components/WalletConnect.tsx:15 | connect, then disconnect, then the first timer fires: the flag is true while signed out |
| Wallet.StepWithCleanup | src/components/WalletConnect.tsx:12-19 | with the timer cancelled on re-run, a disconnect clears the flag and every pending timer, and one step keeps "accredited only while signed in" |
| Wallet.WithCleanupKeepsInvariant | src/components/WalletConnect.tsx:12-19 | with the cleanup, every event sequence keeps "accredited only while signed in" |
| Wallet.WithCleanupFromStart | src/components/WalletConnect.tsx:10-19 | from the initial state, with the cleanup, the flag is never set while signed out |
| Wallet.WalletConnect.constructor | src/components/WalletConnect.tsx:10 | isAccredited starts false with no timer pending |
| Wallet.WalletConnect.RunEffect | src/components/WalletConnect.tsx:12-19 | the effect schedules a timer on a connection with an address, and otherwise clears the flag |
| Wallet.WalletConnect.FireTimer | src/components/WalletConnect.tsx:15 | a pending accreditation timer sets the flag, whatever the connection is by then |

## Left out

- The wallet library (`useAccount`, `useWriteContract`, `useWaitForTransactionReceipt`, `useDisconnect`) and the wallet kit's `ConnectButton`: these are foreign calls. Their outputs are inputs of the model. `writeThrows` stands for `writeContract` throwing on its own; the model does not cover what the library does with the request (ABI encoding, the uint256 range check that a negative BigInt fails, the address check, submission, receipt polling).
- `toast` and `console.error`: a toast is recorded as a value in the handler's result. The console log is not modelled.
- The "Total Cost" line of the Purchase tab (src/components/ContractInteraction.tsx:389-390): it uses floating-point `parseFloat` and `toFixed`, and it is separate from the exact value sent.
- The random bar heights of a revealed chart (`Math.random`, src/components/EncryptedChart.tsx:30-36): a revealed bar is only said to be random between 20px and 60px.
- The 1.5 s delay of the accreditation timer: a timer is an event that may fire after any later events. The delay itself is not a length of time in the model.
- Chart props are constants of a mounted card. Every call site passes a fixed access level, so a prop that changes after mount is not modelled.
- Layout, icons, styling, the static pages, the footer animation and the deployment script: these are presentational or network I/O.
- The on-chain contract is not part of this model.
- Browser handling of the number inputs: faceValue, couponRate, maturityPeriod, totalSupply, quantity and price are `<input type="number">`, and the browser reports text that is not a valid floating-point number as `""`, which `BigInt` reads as 0. The model takes every field as an arbitrary string, so it covers more inputs than the browser would let through. bondId and seller are plain text inputs.

## Findings

| source | as written | input that shows it | evidently intended | confidence | as-written member | corrected member |
|---|---|---|---|---|---|---|
| src/components/WalletConnect.tsx:12-19 | the effect calls `setTimeout(() => setIsAccredited(true), 1500)` and returns no cleanup, so a timer scheduled for one connection still fires after a disconnect | connect with an address, disconnect within 1.5 s, then the timer fires: isAccredited is true while no account is connected, and it stays true through the next connection, before that connection's own check | the effect's cleanup cancels the pending timer, so the flag is set only for the connection that scheduled it | medium, not executed | Wallet.AsWrittenStaleTimer | Wallet.WithCleanupKeepsInvariant |

The component class `Wallet.WalletConnect` models the effect as written.
`Wallet.StepWithCleanup` is the corrected effect, and it is what the
intended invariant is proved about.
