# iTrader dashboard: the action state machine, in Dafny

This project models the request/state-tracking core of the iTrader trading-bot
dashboard. The `useStockBot` hook keeps one `ActionState`
`{loading, message, response, error}` for each of four actions: `train`,
`backtest`, `trade` and `forceExit`. A dispatch first marks its kind as loading.
Once the GET request settles, it records a success or a failure. A success whose
body is the tunnelling proxy's HTML interstitial page is turned into a failure
with a fixed remediation text. A failure's message comes from a three-level
fallback chain. Around this machine, `App.tsx` derives pure views: the
"any loading" flag, the latest-status line, the per-card dot and text, the
trading label, the button guard, and the header's stock label.

Modules:

- `Wrappers` (`wrappers.dfy`): `Option` and `Result`.
- `JsText` (`js_text.dfy`): JavaScript truthiness of optional strings, `||`
  with a string default, and `String.prototype.includes`, which is proved equal
  to "occurs at some position".
- `StockBot` (`stock_bot.dfy`): the hook. It has the kinds, bodies, outcomes,
  the four-state record, `Start`, `Settle`, `Dispatch`, and the four named
  dispatchers.
- `DispatchTrace` (`dispatch_trace.dfy`): dispatches as a sequence of start and
  settle events. Any interleaving of overlapping dispatches is such a sequence.
  It holds the invariant every reachable state keeps, the "last settle wins"
  rule and the non-interference of different kinds.
- `Dashboard` (`dashboard.dfy`): the views `App.tsx` computes.

The network is an input. A settle step takes an `Outcome`, which is either
`Resolved(body)` or `Rejected(Thrown(responseMessage, message))`. A body is one
of three things:

- a string (`Text`);
- a parsed object (`Json`), given with its `message` and its `JSON.stringify` text. These two are independent inputs: the model does not require the text to be the stringified message;
- no body at all (`Undefined`). The source then throws a TypeError from the
  interstitial check. The engine-defined text of that error is part of the input.

A body that is the JSON literal `null` is not modelled (see "## Left out").

A message that is absent or empty counts as missing wherever the source applies
`||` or `if (x)` to it.

## Model

| member | source | states |
|---|---|---|
| `JsText.Includes` | src/hooks/useStockBot.ts:64-65 | the interstitial check's `includes` holds exactly when the marker occurs at some position of the text |
| `StockBot.Initial` | src/hooks/useStockBot.ts:33-38 | every kind starts not loading, with no message, no response and no error |
| `StockBot.Start` | src/hooks/useStockBot.ts:41-49 | the dispatched kind becomes loading with no message and no error; it keeps its previous response; every other kind is unchanged |
| `StockBot.Received` | src/hooks/useStockBot.ts:51-67 | a request goes on as a success exactly when it resolved with a readable body whose text lacks `<!DOCTYPE html>`; an HTML body throws the remediation text, a missing (`undefined`) body throws its read error, a rejection passes its error through |
| `StockBot.ErrorMessage` | src/hooks/useStockBot.ts:81-82 | the failure text is the response body's message if non-empty, else the transport message if non-empty, else `Failed to {endpoint} for {stock}`; it is never empty |
| `StockBot.Settle` | src/hooks/useStockBot.ts:69-94 | only the dispatched kind changes and it stops loading; `error == !success`; a success stores the body's message or "Operation Successful" and the body (the default object for an empty body), and returns the raw message; a failure stores and returns one message, the catch block's chain applied to whatever was thrown (the response or transport message of a rejection, the read error of a missing body, the remediation text of an HTML body), and drops the response |
| `StockBot.States.Set` | src/hooks/useStockBot.ts:41-49 | the `{...prev, [endpoint]: …}` update replaces the dispatched kind's state and leaves every other kind as it was |
| `StockBot.Dispatch` | src/hooks/useStockBot.ts:40-96 | a whole `callAPI` changes only its kind, leaves it not loading with `error == !success`, and ends exactly where settling from the original states ends: the start step leaves no trace |
| `StockBot.TrainModel` | src/hooks/useStockBot.ts:100 | `trainModel` changes only the `train` kind, leaves it not loading, and its error flag is the negation of the returned success |
| `StockBot.BacktestModel` | src/hooks/useStockBot.ts:101 | `backtestModel` changes only the `backtest` kind, with the same settle guarantees |
| `StockBot.StartTrading` | src/hooks/useStockBot.ts:102 | `startTrading` changes only the `trade` kind, with the same settle guarantees |
| `StockBot.ForceExitTrades` | src/hooks/useStockBot.ts:103 | `forceExit` changes only the `forceExit` kind, with the same settle guarantees |
| `StockBot.FailureMessagePriority` | src/hooks/useStockBot.ts:80-94 | for a rejected request, a body message beats the transport message, which beats the generic `Failed to …` text |
| `StockBot.SuccessReturnsRawMessage` | src/hooks/useStockBot.ts:73-79 | every success whose body has no non-empty message returns that raw (missing or empty) message while the stored state shows "Operation Successful" |
| `StockBot.BareMarkerIsInterstitial` | src/hooks/useStockBot.ts:63-67 | a body that is the HTML marker settles as a failure with the remediation text |
| `DispatchTrace.InitialConsistent` | src/hooks/useStockBot.ts:33-38 | the initial states satisfy the reachable-state invariant |
| `DispatchTrace.StepKeepsConsistent` | src/hooks/useStockBot.ts:41-94 | a start or settle step preserves the invariant: messages are never empty; loading excludes message and error; an error carries a message and no response; a success carries a response |
| `DispatchTrace.RunKeepsConsistent` | src/hooks/useStockBot.ts:41-94 | every sequence of start and settle events preserves the invariant |
| `DispatchTrace.ReachableConsistent` | src/hooks/useStockBot.ts:33-94 | every state reachable from the initial one satisfies the invariant |
| `DispatchTrace.OtherKindsUntouched` | src/hooks/useStockBot.ts:41-92 | events of other kinds never change a kind's state |
| `DispatchTrace.LoadingIffPending` | src/hooks/useStockBot.ts:41-92 | a kind is loading exactly when its most recent event is a start step, or, with no event of that kind, when it was loading before |
| `DispatchTrace.LastSettleWins` | src/hooks/useStockBot.ts:69-92 | when a kind's most recent event is a settle, its state is exactly what that settle stores, whatever came before |
| `DispatchTrace.StepsCommute` | src/hooks/useStockBot.ts:41-92 | steps on different kinds commute |
| `DispatchTrace.OverlappedDispatchesIndependent` | src/hooks/useStockBot.ts:40-96 | two overlapping dispatches of different kinds end as if run one after the other, both when the first to start settles first and when it settles last |
| `Dashboard.IsLoading` | src/App.tsx:26-30 | true exactly when some kind is loading |
| `Dashboard.StatusMessage` | src/App.tsx:47-55 | the first non-empty message in the order forceExit, train, backtest, trade; with none, `Selected: {stock}` or "Please select a stock"; never empty |
| `Dashboard.ButtonDisabled` | src/App.tsx:311-313 | the action buttons are disabled exactly when no stock is selected or some kind is loading |
| `Dashboard.Handle` | src/App.tsx:75-93 | a click is a no-op without a selected stock; otherwise it dispatches its kind, which alone changes and stops loading |
| `Dashboard.StatusDot` | src/App.tsx:743-753 | the card dot is busy exactly when loading, failed exactly when not loading and in error, done exactly when neither and a message is present |
| `Dashboard.CardText` | src/App.tsx:757-761 | the card shows the in-progress text when loading, else the message if present, else the ready text |
| `Dashboard.TradingActivity` | src/App.tsx:584-588 | the header shows Processing exactly when some kind is loading, Trading exactly when none is and the trade kind has a message and no error |
| `Dashboard.ButtonLabel` | src/App.tsx:316-518 | each action button shows its busy caption exactly while its kind is loading; the trade button shows "Stop Trading" exactly when the trade kind is idle with a message and no error, else "Start Trading" |
| `Dashboard.TradeButtonActivity` | src/App.tsx:406-412 | the trade button's split is the same, on the trade kind alone |
| `Dashboard.FindOption` | src/App.tsx:560 | the option found is the first whose value is the selection; none is found only when no option has that value |
| `Dashboard.HeaderLabel` | src/App.tsx:560-561 | a selection found among the options is shown as that option's label; one that is not an option's value is shown as itself |
| `Dashboard.HeaderLabelOfOption` | src/App.tsx:10-17 | every option's value is shown under that option's own label |
| `Dashboard.DotAgreesWithCardText` | src/App.tsx:742-762 | on a reachable state, loading and error are never set together, and the dot and the text of a card agree |
| `Dashboard.StartDisablesButtons` | src/App.tsx:26-30 | right after a start step every action button is disabled, the header shows Processing, and the card shows its kind as busy |
| `Dashboard.EnabledClickDispatches` | src/App.tsx:75-93 | an enabled button is clicked with nothing in flight, and its click settles the kind from the current states |
| `Dashboard.ForceExitHeadsStatus` | src/App.tsx:47-48 | after any force-exit dispatch, the latest-status line shows the message that dispatch stored |
| `Dashboard.TradeOutcomeShowsInLabels` | src/App.tsx:414-470 | with no other kind in flight, a trade dispatch shows Trading and Stop Trading exactly when it succeeded, and Idle otherwise |

## Left out

- The axios GET, its URL, query parameter and headers (src/hooks/useStockBot.ts:52-60). The request's result is the `Outcome` input. Which HTTP statuses reject is axios's behaviour and is part of that input.
- Console logging (src/hooks/useStockBot.ts:61) has no effect on state.
- React `useState` scheduling and asynchronous interleaving are not modelled as concurrency. Overlapping dispatches are modelled as sequences of start and settle events (`DispatchTrace`). The source does nothing to guard against a stale settle overwriting a newer one; `LastSettleWins` states that behaviour.
- JSON bodies whose `message` is not a string are not modelled. `Body.Json` carries the message as an optional string.
- Falsy JSON bodies other than the empty string (`0`, `false`) are not modelled. Nor are non-object JSON values.
- The `finalPortfolioValue` display, `formatCurrency` and the percent-from-$10,000 text (src/App.tsx:33-44, 253-308) are left out. They rely on `Intl.NumberFormat`, floating point and `toFixed`.
- The random chart statistics (src/App.tsx:600-656) and the chart component are left out. They are built from `Math.random`, `Date` and timers.
- Theme toggling, class names, colours and the remaining JSX layout are left out. A dot is modelled by the state it signals, not by its colour class.
- The icon helper, the build and proxy configuration, the middleware and the UI wrapper components are left out. They are presentation or configuration.
- `StockBot.Settle`: a body that is the JSON literal `null` is not modelled. Its stringified form `"null"` passes the interstitial check (src/hooks/useStockBot.ts:64-65). The `data.message` read at line 73 sits inside the React state updater, which is queued rather than run at once. The read at line 79 throws first and leads to the failure path, yet the queued success updater still throws when React applies it. That crash of the rendering is outside a model of stored states.
