/** The per-action request state machine of the `useStockBot` hook.

    Each of four action kinds holds an `ActionState`. A dispatch is a start step,
    which marks the kind as loading, followed by a settle step, which records a
    success or a failure. The HTTP request itself is not modelled: its result is
    the `Outcome` input of the settle step. */
module StockBot {
  import opened Wrappers
  import opened JsText

  /** The four actions; each is also the endpoint path under `/api`. */
  datatype Kind = Train | Backtest | Trade | ForceExit

  /** The endpoint name, as used in the URL and in the fallback error text. */
  function Endpoint(k: Kind): string {
    match k
    case Train => "train"
    case Backtest => "backtest"
    case Trade => "trade"
    case ForceExit => "forceExit"
  }

  /** A response body as axios hands it over.
      - `Text`: a body left as a string (typically the proxy's HTML page);
        it has no `message` property.
      - `Json`: a parsed object with its `message` field and its
        `JSON.stringify` form. The two are independent inputs: nothing here
        requires `serialized` to be the stringified form of `message`.
      - `Undefined`: no body at all; calling `includes` on the `undefined`
        that `JSON.stringify` returns for it raises a TypeError whose
        engine-defined text is `readError`. */
  datatype Body =
    | Text(text: string)
    | Json(message: Option<string>, serialized: string)
    | Undefined(readError: string)

  /** `data.message` for a body that is defined. */
  function RawMessage(b: Body): Option<string> {
    match b
    case Json(m, _) => m
    case _ => None
  }

  /** What the `catch` block sees: `error.response?.data?.message` and `error.message`. */
  datatype Thrown = Thrown(responseMessage: Option<string>, message: Option<string>)

  /** The settlement of the GET request. */
  datatype Outcome = Resolved(data: Body) | Rejected(error: Thrown)

  /** The stored state of one action; `response` is `None` for `null`. */
  datatype ActionState = ActionState(loading: bool, message: Option<string>, response: Option<Body>, error: bool)

  /** The value a dispatch returns to its caller. On success `message` is the
      raw `data.message`, which may be absent. */
  datatype ApiMessage = ApiMessage(success: bool, message: Option<string>)

  /** One `ActionState` per kind. */
  datatype States = States(train: ActionState, backtest: ActionState, trade: ActionState, forceExit: ActionState) {

    function Get(k: Kind): ActionState {
      match k
      case Train => train
      case Backtest => backtest
      case Trade => trade
      case ForceExit => forceExit
    }

    /** `{...prev, [endpoint]: a}` */
    function Set(k: Kind, a: ActionState): (r: States)
      ensures r.Get(k) == a
      ensures forall j :: j != k ==> r.Get(j) == Get(j)
    {
      match k
      case Train => this.(train := a)
      case Backtest => this.(backtest := a)
      case Trade => this.(trade := a)
      case ForceExit => this.(forceExit := a)
    }
  }

  /** The marker whose presence in the body text means the proxy's interstitial page came back. */
  const HtmlMarker := "<!DOCTYPE html>"

  /** The remediation text reported when the interstitial page came back. */
  const HtmlError := "Received HTML instead of JSON. Please visit the ngrok URL in browser first to accept the warning."

  /** The stored message of a success whose body carries none. */
  const SuccessDefault := "Operation Successful"

  /** The stored response of a success whose body is falsy (the empty string). */
  const DefaultResponse := Json(Some(SuccessDefault), "{\"message\":\"Operation Successful\"}")

  /** The state of a kind nothing has been dispatched to. */
  const Untouched := ActionState(false, None, None, false)

  /** The state the hook starts with. */
  function Initial(): (s: States)
    ensures forall k :: !s.Get(k).loading && s.Get(k).message.None? && s.Get(k).response.None? && !s.Get(k).error
  {
    States(Untouched, Untouched, Untouched, Untouched)
  }

  /** The start step: marks kind `k` as loading, clears its message and error
      flag, keeps its previous response, and touches no other kind. */
  function Start(s: States, k: Kind): (r: States)
    ensures r.Get(k).loading && r.Get(k).message.None? && !r.Get(k).error
    ensures r.Get(k).response == s.Get(k).response
    ensures forall j :: j != k ==> r.Get(j) == s.Get(j)
  {
    s.Set(k, s.Get(k).(loading := true, message := None, error := false))
  }

  /** The body text the interstitial check searches: the string itself, or the
      `JSON.stringify` form of an object. */
  function BodyText(b: Body): string
    requires !b.Undefined?
  {
    match b
    case Text(t) => t
    case Json(_, j) => j
  }

  /** True when `b` is readable and its text contains the interstitial marker. */
  predicate IsInterstitial(b: Body) {
    !b.Undefined? && Includes(BodyText(b), HtmlMarker)
  }

  /** The `try` block up to the state update: the body it goes on with, or the
      error that reaches the `catch` block. */
  function Received(o: Outcome): (r: Result<Body, Thrown>)
    ensures r.Success? <==> o.Resolved? && !o.data.Undefined? && !IsInterstitial(o.data)
    ensures r.Success? ==> r.value == o.data
    ensures o.Resolved? && IsInterstitial(o.data) ==> r == Failure(Thrown(None, Some(HtmlError)))
    ensures o.Resolved? && o.data.Undefined? ==> r == Failure(Thrown(None, Some(o.data.readError)))
    ensures o.Rejected? ==> r == Failure(o.error)
  {
    match o
    case Rejected(e) => Failure(e)
    case Resolved(b) =>
      if b.Undefined? then Failure(Thrown(None, Some(b.readError)))
      else if Includes(BodyText(b), HtmlMarker) then Failure(Thrown(None, Some(HtmlError)))
      else Success(b)
  }

  /** The error message chain of the `catch` block. */
  function ErrorMessage(e: Thrown, k: Kind, stock: string): (m: string)
    ensures m != ""
    ensures Truthy(e.responseMessage) ==> m == e.responseMessage.value
    ensures !Truthy(e.responseMessage) && Truthy(e.message) ==> m == e.message.value
    ensures !Truthy(e.responseMessage) && !Truthy(e.message) ==> m == "Failed to " + Endpoint(k) + " for " + stock
  {
    OrElse(e.responseMessage, OrElse(e.message, "Failed to " + Endpoint(k) + " for " + stock))
  }

  /** The settle step of a dispatch of kind `k` for `stock`: the new states and
      the value returned to the caller. */
  function Settle(s: States, k: Kind, stock: string, o: Outcome): (r: (States, ApiMessage))
    ensures forall j :: j != k ==> r.0.Get(j) == s.Get(j)
    ensures !r.0.Get(k).loading
    ensures r.0.Get(k).error == !r.1.success
    ensures r.1.success <==> o.Resolved? && !o.data.Undefined? && !IsInterstitial(o.data)
    // a success stores the body's message or the default, and the body itself
    ensures r.1.success ==>
      && r.0.Get(k).message == Some(if Truthy(RawMessage(o.data)) then RawMessage(o.data).value else SuccessDefault)
      && r.0.Get(k).response == Some(if o.data == Text("") then DefaultResponse else o.data)
      && r.1.message == RawMessage(o.data)
    // a failure stores and returns the same message, and drops the response
    ensures !r.1.success ==>
      && r.1.message.Some?
      && r.0.Get(k).message == r.1.message
      && r.0.Get(k).response.None?
    ensures o.Resolved? && IsInterstitial(o.data) ==> r.1 == ApiMessage(false, Some(HtmlError))
    ensures o.Rejected? ==> r.1 == ApiMessage(false, Some(ErrorMessage(o.error, k, stock)))
    // every failure, whatever its source, reports the catch block's message chain
    ensures !r.1.success ==> r.1 == ApiMessage(false, Some(ErrorMessage(Received(o).error, k, stock)))
  {
    match Received(o)
    case Success(data) =>
      var a := ActionState(
        loading := false,
        message := Some(OrElse(RawMessage(data), SuccessDefault)),
        response := Some(if data == Text("") then DefaultResponse else data),
        error := false);
      (s.Set(k, a), ApiMessage(true, RawMessage(data)))
    case Failure(e) =>
      var m := ErrorMessage(e, k, stock);
      (s.Set(k, ActionState(false, Some(m), None, true)), ApiMessage(false, Some(m)))
  }

  /** A whole dispatch (`callAPI`) run without interleaving: start, then
      settle. Once it settles, the start step has left no trace: the result is
      what settling from the original states gives. */
  function Dispatch(s: States, k: Kind, stock: string, o: Outcome): (r: (States, ApiMessage))
    ensures r == Settle(s, k, stock, o)
    ensures forall j :: j != k ==> r.0.Get(j) == s.Get(j)
    ensures !r.0.Get(k).loading && r.0.Get(k).error == !r.1.success
  {
    Settle(Start(s, k), k, stock, o)
  }

  /** `trainModel`: dispatches the `train` kind. */
  function TrainModel(s: States, stock: string, o: Outcome): (r: (States, ApiMessage))
    ensures r.0.backtest == s.backtest && r.0.trade == s.trade && r.0.forceExit == s.forceExit
    ensures !r.0.train.loading && r.0.train.error == !r.1.success
    ensures r.1.success ==> o.Resolved? && r.1.message == RawMessage(o.data)
    ensures !r.1.success ==> r.0.train.message == r.1.message && r.1.message.Some?
  {
    Dispatch(s, Train, stock, o)
  }

  /** `backtestModel`: dispatches the `backtest` kind. */
  function BacktestModel(s: States, stock: string, o: Outcome): (r: (States, ApiMessage))
    ensures r.0.train == s.train && r.0.trade == s.trade && r.0.forceExit == s.forceExit
    ensures !r.0.backtest.loading && r.0.backtest.error == !r.1.success
    ensures r.1.success ==> o.Resolved? && r.1.message == RawMessage(o.data)
    ensures !r.1.success ==> r.0.backtest.message == r.1.message && r.1.message.Some?
  {
    Dispatch(s, Backtest, stock, o)
  }

  /** `startTrading`: dispatches the `trade` kind. */
  function StartTrading(s: States, stock: string, o: Outcome): (r: (States, ApiMessage))
    ensures r.0.train == s.train && r.0.backtest == s.backtest && r.0.forceExit == s.forceExit
    ensures !r.0.trade.loading && r.0.trade.error == !r.1.success
    ensures r.1.success ==> o.Resolved? && r.1.message == RawMessage(o.data)
    ensures !r.1.success ==> r.0.trade.message == r.1.message && r.1.message.Some?
  {
    Dispatch(s, Trade, stock, o)
  }

  /** `forceExit`: dispatches the `forceExit` kind. */
  function ForceExitTrades(s: States, stock: string, o: Outcome): (r: (States, ApiMessage))
    ensures r.0.train == s.train && r.0.backtest == s.backtest && r.0.trade == s.trade
    ensures !r.0.forceExit.loading && r.0.forceExit.error == !r.1.success
    ensures r.1.success ==> o.Resolved? && r.1.message == RawMessage(o.data)
    ensures !r.1.success ==> r.0.forceExit.message == r.1.message && r.1.message.Some?
  {
    Dispatch(s, ForceExit, stock, o)
  }

  /** The fallback chain of a rejected request: a response body message beats
      the transport message, which beats the generic text. */
  lemma FailureMessagePriority(s: States, k: Kind, stock: string, body: Option<string>, transport: Option<string>)
    ensures Truthy(body) ==>
      Dispatch(s, k, stock, Rejected(Thrown(body, transport))).1 == ApiMessage(false, body)
    ensures !Truthy(body) && Truthy(transport) ==>
      Dispatch(s, k, stock, Rejected(Thrown(body, transport))).1 == ApiMessage(false, transport)
    ensures !Truthy(body) && !Truthy(transport) ==>
      Dispatch(s, k, stock, Rejected(Thrown(body, transport))).0.Get(k).message
        == Some("Failed to " + Endpoint(k) + " for " + stock)
  {
  }

  /** A success returns the body's raw message, not the stored default: a
      body without a message reports success with that missing message while
      the stored state shows the default text. */
  lemma SuccessReturnsRawMessage(s: States, k: Kind, stock: string, b: Body)
    requires !b.Undefined? && !IsInterstitial(b) && !Truthy(RawMessage(b))
    ensures var r := Dispatch(s, k, stock, Resolved(b));
      && r.1 == ApiMessage(true, RawMessage(b))
      && r.0.Get(k).message == Some(SuccessDefault)
  {
  }

  /** A string body that is exactly the marker is an interstitial page: it can
      never settle as a success. */
  lemma BareMarkerIsInterstitial(s: States, k: Kind, stock: string)
    ensures Dispatch(s, k, stock, Resolved(Text(HtmlMarker))).1 == ApiMessage(false, Some(HtmlError))
    ensures Dispatch(s, k, stock, Resolved(Text(HtmlMarker))).0.Get(k).error
  {
  }
}
