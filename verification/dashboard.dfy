/** The pure views the dashboard derives from the four action states and the
    selected stock. Styling and theming are not modelled; a coloured dot is
    represented by the state it signals. */
module Dashboard {
  import opened Wrappers
  import opened JsText
  import opened StockBot
  import opened DispatchTrace

  /** An entry of the stock selector. */
  datatype StockOption = StockOption(value: string, labelText: string)

  const StockOptions: seq<StockOption> := [
    StockOption("Apple", "Apple Inc. (AAPL)"),
    StockOption("Microsoft", "Microsoft Corporation (MSFT)"),
    StockOption("Google", "Google (GOOGL)"),
    StockOption("Netflix", "Netflix (NFLX)"),
    StockOption("Tesla", "Tesla Inc. (TSLA)"),
    StockOption("Nvidia", "NVIDIA (NVDA)")
  ]

  /** Some action is in flight. */
  function IsLoading(s: States): (r: bool)
    ensures r <==> exists k :: s.Get(k).loading
  {
    assert s.train == s.Get(Train) && s.backtest == s.Get(Backtest);
    assert s.trade == s.Get(Trade) && s.forceExit == s.Get(ForceExit);
    s.train.loading || s.backtest.loading || s.trade.loading || s.forceExit.loading
  }

  /** The order in which the latest-status line consults the kinds' messages. */
  function Rank(k: Kind): nat {
    match k
    case ForceExit => 0
    case Train => 1
    case Backtest => 2
    case Trade => 3
  }

  /** The latest-status line: the first non-empty message in the order
      forceExit, train, backtest, trade; failing that, the selection prompt. */
  function StatusMessage(s: States, selected: string): (r: string)
    ensures r != ""
    ensures forall k ::
      Truthy(s.Get(k).message) && (forall j :: Rank(j) < Rank(k) ==> !Truthy(s.Get(j).message))
      ==> r == s.Get(k).message.value
    ensures (forall k :: !Truthy(s.Get(k).message)) ==>
      r == (if selected != "" then "Selected: " + selected else "Please select a stock")
  {
    assert s.train == s.Get(Train) && s.backtest == s.Get(Backtest);
    assert s.trade == s.Get(Trade) && s.forceExit == s.Get(ForceExit);
    if Truthy(s.forceExit.message) then s.forceExit.message.value
    else if Truthy(s.train.message) then s.train.message.value
    else if Truthy(s.backtest.message) then s.backtest.message.value
    else if Truthy(s.trade.message) then s.trade.message.value
    else if selected != "" then "Selected: " + selected
    else "Please select a stock"
  }

  /** Whether the action buttons are disabled; all four share the condition. */
  function ButtonDisabled(s: States, selected: string): (r: bool)
    ensures r <==> selected == "" || exists k :: s.Get(k).loading
  {
    selected == "" || IsLoading(s)
  }

  /** A click on the button of kind `k` (`handleTrain` and its siblings), run
      to settlement: nothing happens without a selected stock. */
  function Handle(s: States, k: Kind, selected: string, o: Outcome): (r: States)
    ensures selected == "" ==> r == s
    ensures selected != "" ==> !r.Get(k).loading && forall j :: j != k ==> r.Get(j) == s.Get(j)
    ensures selected != "" ==> r == Dispatch(s, k, selected, o).0
  {
    if selected == "" then s else Dispatch(s, k, selected, o).0
  }

  /** The coloured dot of a status card: yellow, red, green or grey. */
  datatype Dot = Busy | Failed | Done | Quiet

  /** The dot precedence: loading, then error, then message, then idle. */
  function StatusDot(a: ActionState): (d: Dot)
    ensures d == Busy <==> a.loading
    ensures d == Failed <==> !a.loading && a.error
    ensures d == Done <==> !a.loading && !a.error && Truthy(a.message)
  {
    if a.loading then Busy
    else if a.error then Failed
    else if Truthy(a.message) then Done
    else Quiet
  }

  /** The text a status card shows while its kind is loading. */
  function ProgressText(k: Kind): string {
    match k
    case Train => "Training in progress..."
    case Backtest => "Backtesting in progress..."
    case Trade => "Processing trading request..."
    case ForceExit => "Processing exit request..."
  }

  /** The text a status card shows when there is nothing to report. */
  function ReadyText(k: Kind): string {
    match k
    case Train => "Ready to train"
    case Backtest => "Ready to backtest"
    case Trade => "Ready to trade"
    case ForceExit => "Ready for emergency exit"
  }

  /** The text of the status card of kind `k`. */
  function CardText(k: Kind, a: ActionState): (r: string)
    ensures a.loading ==> r == ProgressText(k)
    ensures !a.loading && Truthy(a.message) ==> r == a.message.value
    ensures !a.loading && !Truthy(a.message) ==> r == ReadyText(k)
  {
    if a.loading then ProgressText(k)
    else if Truthy(a.message) then a.message.value
    else ReadyText(k)
  }

  /** The three-way trading split shared by the header label and dot and by
      the trade button. */
  datatype Activity = Processing | Trading | Resting

  /** The header's trading indicator: any kind loading, else a successful
      trade message, else idle. */
  function TradingActivity(s: States): (r: Activity)
    ensures r == Processing <==> exists k :: s.Get(k).loading
    ensures r == Trading <==> (forall k :: !s.Get(k).loading) && Truthy(s.trade.message) && !s.trade.error
  {
    if IsLoading(s) then Processing
    else if Truthy(s.trade.message) && !s.trade.error then Trading
    else Resting
  }

  function ActivityLabel(a: Activity): string {
    match a
    case Processing => "Processing"
    case Trading => "Trading"
    case Resting => "Idle"
  }

  /** The trade button's split, which consults the trade kind alone. */
  function TradeButtonActivity(a: ActionState): (r: Activity)
    ensures r == Processing <==> a.loading
    ensures r == Trading <==> !a.loading && Truthy(a.message) && !a.error
  {
    if a.loading then Processing
    else if Truthy(a.message) && !a.error then Trading
    else Resting
  }

  /** The caption an action button shows while its kind is loading. */
  function BusyCaption(k: Kind): string {
    match k
    case Train => "Training Model..."
    case Backtest => "Backtesting..."
    case Trade => "Processing..."
    case ForceExit => "Processing Exit..."
  }

  /** The caption of the action button of kind `k`: the busy caption exactly
      while the kind is loading; otherwise the action's name, which for the
      trade button is "Stop Trading" exactly when trading is shown active. */
  function ButtonLabel(k: Kind, a: ActionState): (r: string)
    ensures r == BusyCaption(k) <==> a.loading
    ensures k == Trade ==> (r == "Stop Trading" <==> TradeButtonActivity(a) == Trading)
    ensures k == Trade && !a.loading ==> (r == "Start Trading" <==> TradeButtonActivity(a) == Resting)
  {
    if a.loading then BusyCaption(k)
    else
      match k
      case Train => "Train Model"
      case Backtest => "Backtest Model"
      case Trade => if TradeButtonActivity(a) == Trading then "Stop Trading" else "Start Trading"
      case ForceExit => "Force Exit"
  }

  /** The position of the option `Array.prototype.find` returns: the first entry whose value is `v`. */
  function FindOption(opts: seq<StockOption>, v: string): (r: Option<nat>)
    ensures r.Some? ==> r.value < |opts| && opts[r.value].value == v
    ensures r.Some? ==> forall j :: 0 <= j < r.value ==> opts[j].value != v
    ensures r.None? ==> forall j :: 0 <= j < |opts| ==> opts[j].value != v
    decreases |opts|
  {
    if |opts| == 0 then None
    else if opts[0].value == v then Some(0)
    else
      match FindOption(opts[1..], v)
      case None => None
      case Some(i) => Some(i + 1)
  }

  /** The header title: the label of the option whose value is the selection,
      else the selection itself. */
  function HeaderLabel(selected: string): (r: string)
    ensures (forall j :: 0 <= j < |StockOptions| ==> StockOptions[j].value != selected) ==> r == selected
    ensures FindOption(StockOptions, selected).Some? ==>
      r == StockOptions[FindOption(StockOptions, selected).value].labelText
  {
    match FindOption(StockOptions, selected)
    case Some(i) => OrElse(Some(StockOptions[i].labelText), selected)
    case None => selected
  }

  /** Each option's value is shown under its own label. */
  lemma HeaderLabelOfOption(i: nat)
    requires i < |StockOptions|
    ensures HeaderLabel(StockOptions[i].value) == StockOptions[i].labelText
  {
  }

  /** On a reachable state the card's dot and text tell the same story, and
      loading never hides an error: the two are never set together. */
  lemma DotAgreesWithCardText(k: Kind, a: ActionState)
    requires Consistent(a)
    ensures !(a.loading && a.error)
    ensures StatusDot(a) == Busy ==> CardText(k, a) == ProgressText(k)
    ensures StatusDot(a) == Failed || StatusDot(a) == Done ==> a.message.Some? && CardText(k, a) == a.message.value
    ensures StatusDot(a) == Quiet ==> CardText(k, a) == ReadyText(k)
  {
  }

  /** A start step disables every action button and shows the kind as busy. */
  lemma StartDisablesButtons(s: States, k: Kind, selected: string)
    ensures ButtonDisabled(Start(s, k), selected)
    ensures TradingActivity(Start(s, k)) == Processing
    ensures StatusDot(Start(s, k).Get(k)) == Busy
    ensures CardText(k, Start(s, k).Get(k)) == ProgressText(k)
  {
  }

  /** An enabled button dispatches its kind from a state where nothing is in flight. */
  lemma EnabledClickDispatches(s: States, k: Kind, selected: string, o: Outcome)
    requires !ButtonDisabled(s, selected)
    ensures forall j :: !s.Get(j).loading
    ensures Handle(s, k, selected, o) == Settle(s, k, selected, o).0
  {
  }

  /** After any force-exit dispatch, the latest-status line shows what that
      dispatch stored, since force-exit messages come first. */
  lemma ForceExitHeadsStatus(s: States, stock: string, o: Outcome, selected: string)
    ensures var r := ForceExitTrades(s, stock, o);
      && r.0.forceExit.message.Some?
      && StatusMessage(r.0, selected) == r.0.forceExit.message.value
      && (!r.1.success ==> StatusMessage(r.0, selected) == r.1.message.value)
  {
  }

  /** With no other kind in flight, a trade dispatch shows "Trading" exactly
      when it succeeded, both in the header and on the trade button. */
  lemma TradeOutcomeShowsInLabels(s: States, stock: string, o: Outcome)
    requires forall k :: k != Trade ==> !s.Get(k).loading
    ensures var r := StartTrading(s, stock, o);
      && (ActivityLabel(TradingActivity(r.0)) == "Trading" <==> r.1.success)
      && (ActivityLabel(TradingActivity(r.0)) == "Idle" <==> !r.1.success)
      && (ButtonLabel(Trade, r.0.trade) == "Stop Trading" <==> r.1.success)
  {
  }
}
