/**
  The two multi-step workflows of the bot, placing an order and setting leverage,
  as the chat library runs them. Each handler callback reads and writes the
  per-user `user_data` dictionary and returns the next conversation state (or END).
  Each ConversationHandler keeps one state per user, and the application offers an
  update to its handlers in registration order: the first that accepts it handles it.

  Number parsing (`float()`, `int()`) and the exchange's reply to a call are inputs
  (`Env`): the model fixes no grammar and no exchange behaviour.
 */
module Conversation {
  import opened Wrappers
  import opened Strings

  /** The conversation states of bot.py:27; the library's END is `None` in an `Option<State>`. */
  datatype State = Symbol | OrderType | Side | Quantity | Price | Leverage

  /** The keys the handlers write into `context.user_data`. */
  datatype Key = SymbolKey | OrderTypeKey | SideKey | QuantityKey | PriceKey

  /** A stored value: a string cut from a callback id, or a parsed float. */
  datatype Value = Str(s: string) | Num(x: real)

  type UserData = map<Key, Value>

  /** What reaches the bot: a button press with its callback id, a plain text message, or a `/command`. */
  datatype Event = Callback(data: string) | Message(text: string) | Command(name: string)

  /** The exchange's answer to a mutating call: a body with `retCode` and `retMsg` (either may be absent), or an exception. */
  datatype Reply = Response(retCode: Option<int>, retMsg: Option<string>) | Raises

  /** What the handlers consult outside the session: Python's `float()` and `int()`, and the reply to the call made. */
  datatype Env = Env(parseFloat: string -> Option<real>, parseInt: string -> Option<int>, reply: Reply)

  /** The keyword arguments of `client.place_order`. */
  datatype OrderRequest = OrderRequest(
    category: string, symbol: Value, side: string, orderType: string, qty: Value, price: Option<Value>)

  /** A state-changing exchange call: the two workflows' final calls and the `cancel_orders` button's. */
  datatype Call =
    | PlaceOrderCall(request: OrderRequest)
    | SetLeverageCall(category: string, symbol: Value, buyLeverage: string, sellLeverage: string)
    | CancelAllOrdersCall(category: string, settleCoin: string)

  /** What the user is told, as far as the logic decides it (the wording is left out). */
  datatype Notice =
    | Prompt | MainMenu | Cancelled
    | InvalidQuantity | InvalidPrice | InvalidLeverage | LeverageOutOfRange
    | OrderPlaced | OrderFailed(retMsg: Option<string>) | OrderError
    | LeverageSet(leverage: int) | LeverageFailed(retMsg: Option<string>)
    | OrdersCancelled | CancelOrdersFailed(retMsg: Option<string>) | CancelOrdersError
    | Silent

  /** What a callback does with the conversation: move to a state, end it, or raise (the state is then kept). */
  datatype Return = Next(state: State) | End | Raised

  /** The result of one callback: its return, the new `user_data`, the call it made, its notice. */
  datatype Outcome = Outcome(ret: Return, userData: UserData, call: Option<Call>, notice: Notice)

  /** `user_data` is `u` with at most the entry for `k` written. */
  predicate WritesAtMost(u: UserData, u': UserData, k: Key) {
    u' == u || (k in u' && u' == u[k := u'[k]])
  }

  // ---------------------------------------------------------------- handlers

  /** `start_place_order`: show the pairs and wait for one. */
  function StartPlaceOrder(u: UserData): (o: Outcome)
    ensures o.ret == Next(Symbol) && o.userData == u && o.call == None
  {
    Outcome(Next(Symbol), u, None, Prompt)
  }

  /** `start_set_leverage`: show the pairs and wait for one. */
  function StartSetLeverage(u: UserData): (o: Outcome)
    ensures o.ret == Next(Symbol) && o.userData == u && o.call == None
  {
    Outcome(Next(Symbol), u, None, Prompt)
  }

  /** `back_to_main_menu`: show the menu and end the conversation; `user_data` is not cleared. */
  function BackToMainMenu(u: UserData): (o: Outcome)
    ensures o.ret == End && o.userData == u && o.call == None
  {
    Outcome(End, u, None, MainMenu)
  }

  /** `cancel`: confirm and end the conversation; `user_data` is not cleared. */
  function Cancel(u: UserData): (o: Outcome)
    ensures o.ret == End && o.userData == u && o.call == None
  {
    Outcome(End, u, None, Cancelled)
  }

  /**
    `context.user_data[key] = data.split('_')[1]` followed by `return next`. An id
    without `_` has no second piece: the IndexError escapes the callback.
   */
  function StoreChoice(data: string, key: Key, u: UserData, next: State): (o: Outcome)
    ensures o.call == None && WritesAtMost(u, o.userData, key)
    ensures |Split(data, '_')| >= 2 <==> o.ret == Next(next)
    ensures o.ret == Next(next) ==> o.userData == u[key := Str(Split(data, '_')[1])]
    ensures o.ret != Next(next) ==> o.ret == Raised && o.userData == u
  {
    var parts := Split(data, '_');
    if |parts| < 2 then Outcome(Raised, u, None, Silent)
    else Outcome(Next(next), u[key := Str(parts[1])], None, Prompt)
  }

  /** `select_order_type`: store the chosen symbol and ask for the order type. */
  function SelectOrderType(data: string, u: UserData): (o: Outcome)
    ensures o.call == None && WritesAtMost(u, o.userData, SymbolKey)
    ensures data == "back_to_menu" ==> o == BackToMainMenu(u)
    ensures data != "back_to_menu" && |Split(data, '_')| >= 2 ==>
              o.ret == Next(OrderType) && o.userData == u[SymbolKey := Str(Split(data, '_')[1])]
  {
    if data == "back_to_menu" then BackToMainMenu(u)
    else StoreChoice(data, SymbolKey, u, OrderType)
  }

  /** `select_side`: store the chosen order type and ask for the side. */
  function SelectSide(data: string, u: UserData): (o: Outcome)
    ensures o.call == None && WritesAtMost(u, o.userData, OrderTypeKey)
    ensures data == "back_to_menu" ==> o == BackToMainMenu(u)
    ensures data != "back_to_menu" && |Split(data, '_')| >= 2 ==>
              o.ret == Next(Side) && o.userData == u[OrderTypeKey := Str(Split(data, '_')[1])]
  {
    if data == "back_to_menu" then BackToMainMenu(u)
    else StoreChoice(data, OrderTypeKey, u, Side)
  }

  /**
    `enter_quantity`: store the chosen side and ask for the quantity. The prompt reads
    `user_data['symbol'][:3]`, which raises when no symbol string is stored; the side
    is already written then.
   */
  function EnterQuantity(data: string, u: UserData): (o: Outcome)
    ensures o.call == None && WritesAtMost(u, o.userData, SideKey)
    ensures data == "back_to_menu" ==> o == BackToMainMenu(u)
    ensures data != "back_to_menu" && |Split(data, '_')| >= 2 ==>
              o.userData == u[SideKey := Str(Split(data, '_')[1])]
    ensures data != "back_to_menu" && |Split(data, '_')| >= 2 ==>
              (o.ret == Next(Quantity) <==> SymbolKey in u && u[SymbolKey].Str?)
  {
    if data == "back_to_menu" then BackToMainMenu(u)
    else
      var o := StoreChoice(data, SideKey, u, Quantity);
      if o.ret == Raised || (SymbolKey in o.userData && o.userData[SymbolKey].Str?) then o
      else Outcome(Raised, o.userData, None, Silent)
  }

  /** Every key the order request reads, with the types `.upper()` needs; a price for a limit order. */
  predicate Complete(u: UserData) {
    && SymbolKey in u && SideKey in u && OrderTypeKey in u && QuantityKey in u
    && u[SideKey].Str? && u[OrderTypeKey].Str?
    && (u[OrderTypeKey] == Str("limit") ==> PriceKey in u)
  }

  /**
    The `order_data` dictionary of `place_order`: side and order type upper-cased,
    and a price exactly for a limit order. `None` where building it raises (a
    missing key, a value without `.upper()`).
   */
  function BuildRequest(u: UserData): (r: Option<OrderRequest>)
    ensures r.Some? <==> Complete(u)
    ensures r.Some? ==> r.value.category == "linear" && r.value.symbol == u[SymbolKey] && r.value.qty == u[QuantityKey]
    ensures r.Some? ==> r.value.side == Upper(u[SideKey].s) && r.value.orderType == Upper(u[OrderTypeKey].s)
    ensures r.Some? ==> (r.value.price.Some? <==> u[OrderTypeKey] == Str("limit"))
    ensures r.Some? && r.value.price.Some? ==> r.value.price.value == u[PriceKey]
  {
    if !Complete(u) then None
    else
      var limit := u[OrderTypeKey] == Str("limit");
      Some(OrderRequest("linear", u[SymbolKey], Upper(u[SideKey].s), Upper(u[OrderTypeKey].s),
                        u[QuantityKey], if limit then Some(u[PriceKey]) else None))
  }

  /** How `place_order` reports the exchange's answer: success only for `retCode == 0`, otherwise `retMsg` verbatim. */
  function OrderReport(reply: Reply): (n: Notice)
    ensures n == OrderPlaced <==> reply.Response? && reply.retCode == Some(0)
    ensures reply.Response? && reply.retCode != Some(0) ==> n == OrderFailed(reply.retMsg)
    ensures reply.Raises? ==> n == OrderError
  {
    match reply
    case Raises => OrderError
    case Response(code, msg) => if code == Some(0) then OrderPlaced else OrderFailed(msg)
  }

  /**
    `place_order`: build the request, send it, report the answer. Every exception is
    caught, and the conversation ends whatever happens.
   */
  function PlaceOrder(u: UserData, reply: Reply): (o: Outcome)
    ensures o.ret == End && o.userData == u
    ensures o.call.Some? <==> Complete(u)
    ensures o.call.Some? ==> o.call == Some(PlaceOrderCall(BuildRequest(u).value)) && o.notice == OrderReport(reply)
    ensures o.call.None? ==> o.notice == OrderError
  {
    match BuildRequest(u)
    case None => Outcome(End, u, None, OrderError)
    case Some(request) => Outcome(End, u, Some(PlaceOrderCall(request)), OrderReport(reply))
  }

  /**
    `handle_quantity`: a text that does not parse keeps QUANTITY and changes nothing;
    a parsed quantity is stored, then a limit order asks for the price and any other
    order is placed at once. A missing order type raises a KeyError, which the
    `except ValueError` does not catch.
   */
  function HandleQuantity(text: string, u: UserData, env: Env): (o: Outcome)
    ensures env.parseFloat(text).None? ==> o == Outcome(Next(Quantity), u, None, InvalidQuantity)
    ensures env.parseFloat(text).Some? ==> o.userData == u[QuantityKey := Num(env.parseFloat(text).value)]
    ensures env.parseFloat(text).Some? && OrderTypeKey in u && u[OrderTypeKey] == Str("limit") ==>
              o.ret == Next(Price) && o.call == None
    ensures env.parseFloat(text).Some? && OrderTypeKey in u && u[OrderTypeKey] != Str("limit") ==>
              o == PlaceOrder(u[QuantityKey := Num(env.parseFloat(text).value)], env.reply)
    ensures env.parseFloat(text).Some? && OrderTypeKey !in u ==> o.ret == Raised && o.call == None
  {
    match env.parseFloat(text)
    case None => Outcome(Next(Quantity), u, None, InvalidQuantity)
    case Some(quantity) =>
      var u' := u[QuantityKey := Num(quantity)];
      if OrderTypeKey !in u' then Outcome(Raised, u', None, Silent)
      else if u'[OrderTypeKey] == Str("limit") then Outcome(Next(Price), u', None, Prompt)
      else PlaceOrder(u', env.reply)
  }

  /** `handle_price`: a text that does not parse keeps PRICE and changes nothing; a parsed price is stored and the order placed. */
  function HandlePrice(text: string, u: UserData, env: Env): (o: Outcome)
    ensures env.parseFloat(text).None? ==> o == Outcome(Next(Price), u, None, InvalidPrice)
    ensures env.parseFloat(text).Some? ==> o == PlaceOrder(u[PriceKey := Num(env.parseFloat(text).value)], env.reply)
  {
    match env.parseFloat(text)
    case None => Outcome(Next(Price), u, None, InvalidPrice)
    case Some(price) => PlaceOrder(u[PriceKey := Num(price)], env.reply)
  }

  /** `enter_leverage`: store the chosen symbol and ask for the leverage (this callback has no back-to-menu test). */
  function EnterLeverage(data: string, u: UserData): (o: Outcome)
    ensures o.call == None && WritesAtMost(u, o.userData, SymbolKey)
    ensures |Split(data, '_')| >= 2 ==> o.ret == Next(Leverage) && o.userData == u[SymbolKey := Str(Split(data, '_')[1])]
  {
    StoreChoice(data, SymbolKey, u, Leverage)
  }

  /**
    `handle_leverage`: a text that is not an integer, or an integer outside [1, 100],
    keeps LEVERAGE with no call. An integer in range makes exactly one `set_leverage`
    call with `str(leverage)` for both legs and ends the conversation. Only ValueError
    is caught, so an exception from the call escapes and the state stays LEVERAGE.
   */
  function HandleLeverage(text: string, u: UserData, env: Env): (o: Outcome)
    ensures o.userData == u
    ensures env.parseInt(text).None? ==> o == Outcome(Next(Leverage), u, None, InvalidLeverage)
    ensures env.parseInt(text).Some? && !(1 <= env.parseInt(text).value <= 100) ==>
              o == Outcome(Next(Leverage), u, None, LeverageOutOfRange)
    ensures o.call.Some? <==> env.parseInt(text).Some? && 1 <= env.parseInt(text).value <= 100 && SymbolKey in u
    ensures o.call.Some? ==>
              var n := env.parseInt(text).value;
              o.call.value == SetLeverageCall("linear", u[SymbolKey], DecimalString(n), DecimalString(n))
    ensures o.call.Some? && env.reply.Response? ==> o.ret == End
    ensures o.call.Some? && env.reply.Response? ==>
              (o.notice == LeverageSet(env.parseInt(text).value) <==> env.reply.retCode == Some(0))
    ensures o.ret == Raised <==>
              env.parseInt(text).Some? && 1 <= env.parseInt(text).value <= 100 && (SymbolKey !in u || env.reply.Raises?)
  {
    match env.parseInt(text)
    case None => Outcome(Next(Leverage), u, None, InvalidLeverage)
    case Some(n) =>
      if n < 1 || n > 100 then Outcome(Next(Leverage), u, None, LeverageOutOfRange)
      else if SymbolKey !in u then Outcome(Raised, u, None, Silent)
      else
        var call := SetLeverageCall("linear", u[SymbolKey], DecimalString(n), DecimalString(n));
        match env.reply
        case Raises => Outcome(Raised, u, Some(call), Silent)
        case Response(code, msg) =>
          Outcome(End, u, Some(call), if code == Some(0) then LeverageSet(n) else LeverageFailed(msg))
  }

  // ---------------------------------------------------------------- the two conversations

  /** The navigation button's id matches none of the per-state patterns. */
  lemma BackMatchesNoPattern()
    ensures !StartsWith("back_to_menu", "symbol_") && !StartsWith("back_to_menu", "type_")
    ensures !StartsWith("back_to_menu", "side_") && !StartsWith("back_to_menu", "leverage_")
  {
    assert "back_to_menu"[0] == 'b';
  }

  /** The updates a state's own handler takes in the place-order conversation (bot.py:541-560). */
  predicate OrderAccepts(state: State, e: Event) {
    match state
    case Symbol => e.Callback? && StartsWith(e.data, "symbol_")
    case OrderType => e.Callback? && StartsWith(e.data, "type_")
    case Side => e.Callback? && StartsWith(e.data, "side_")
    case Quantity => e.Message?
    case Price => e.Message?
    case Leverage => false
  }

  /** The updates a state's own handler takes in the set-leverage conversation (bot.py:572-580). */
  predicate LeverageAccepts(state: State, e: Event) {
    match state
    case Symbol => e.Callback? && StartsWith(e.data, "leverage_")
    case Leverage => e.Message?
    case _ => false
  }

  /**
    The place-order ConversationHandler (bot.py:538-566) for one update: `None` when it
    does not accept the update. Idle, only the `place_order` button enters. In a state,
    that state's own handler is tried first, then `back_to_menu` (listed in every state
    and again among the fallbacks), then the `/cancel` fallback.
   */
  function OrderStep(st: Option<State>, e: Event, u: UserData, env: Env): (r: Option<Outcome>)
    ensures st.None? ==> (r.Some? <==> e == Callback("place_order"))
    ensures st.None? && r.Some? ==> r == Some(StartPlaceOrder(u))
    ensures st.Some? ==> (r.Some? <==> OrderAccepts(st.value, e) || e == Callback("back_to_menu") || e == Command("cancel"))
    ensures st == Some(Symbol) && OrderAccepts(Symbol, e) ==> r == Some(SelectOrderType(e.data, u))
    ensures st == Some(OrderType) && OrderAccepts(OrderType, e) ==> r == Some(SelectSide(e.data, u))
    ensures st == Some(Side) && OrderAccepts(Side, e) ==> r == Some(EnterQuantity(e.data, u))
    ensures st == Some(Quantity) && e.Message? ==> r == Some(HandleQuantity(e.text, u, env))
    ensures st == Some(Price) && e.Message? ==> r == Some(HandlePrice(e.text, u, env))
    ensures st.Some? && e == Callback("back_to_menu") ==> r == Some(BackToMainMenu(u))
    ensures st.Some? && e == Command("cancel") ==> r == Some(Cancel(u))
    ensures r.Some? && r.value.call.Some? ==>
              e.Message? && (st == Some(Quantity) || st == Some(Price)) && r.value.call.value.PlaceOrderCall?
  {
    BackMatchesNoPattern();
    match st
    case None => if e == Callback("place_order") then Some(StartPlaceOrder(u)) else None
    case Some(state) =>
      var own :=
        match state
        case Symbol => if e.Callback? && StartsWith(e.data, "symbol_") then Some(SelectOrderType(e.data, u)) else None
        case OrderType => if e.Callback? && StartsWith(e.data, "type_") then Some(SelectSide(e.data, u)) else None
        case Side => if e.Callback? && StartsWith(e.data, "side_") then Some(EnterQuantity(e.data, u)) else None
        case Quantity => if e.Message? then Some(HandleQuantity(e.text, u, env)) else None
        case Price => if e.Message? then Some(HandlePrice(e.text, u, env)) else None
        case Leverage => None;
      if own.Some? then own
      else if e == Callback("back_to_menu") then Some(BackToMainMenu(u))
      else if e == Command("cancel") then Some(Cancel(u))
      else None
  }

  /** The set-leverage ConversationHandler (bot.py:570-586), in the same way. */
  function LeverageStep(st: Option<State>, e: Event, u: UserData, env: Env): (r: Option<Outcome>)
    ensures st.None? ==> (r.Some? <==> e == Callback("set_leverage"))
    ensures st.None? && r.Some? ==> r == Some(StartSetLeverage(u))
    ensures st.Some? ==> (r.Some? <==> LeverageAccepts(st.value, e) || e == Callback("back_to_menu") || e == Command("cancel"))
    ensures st == Some(Symbol) && LeverageAccepts(Symbol, e) ==> r == Some(EnterLeverage(e.data, u))
    ensures st == Some(Leverage) && e.Message? ==> r == Some(HandleLeverage(e.text, u, env))
    ensures st.Some? && e == Callback("back_to_menu") ==> r == Some(BackToMainMenu(u))
    ensures st.Some? && e == Command("cancel") ==> r == Some(Cancel(u))
    ensures r.Some? && r.value.call.Some? ==> e.Message? && st == Some(Leverage) && r.value.call.value.SetLeverageCall?
  {
    BackMatchesNoPattern();
    match st
    case None => if e == Callback("set_leverage") then Some(StartSetLeverage(u)) else None
    case Some(state) =>
      var own :=
        match state
        case Symbol => if e.Callback? && StartsWith(e.data, "leverage_") then Some(EnterLeverage(e.data, u)) else None
        case Leverage => if e.Message? then Some(HandleLeverage(e.text, u, env)) else None
        case _ => None;
      if own.Some? then own
      else if e == Callback("back_to_menu") then Some(BackToMainMenu(u))
      else if e == Command("cancel") then Some(Cancel(u))
      else None
  }

  /** The conversation state after a callback: its return value, or the old state when it raised. */
  function Advance(st: Option<State>, ret: Return): Option<State> {
    match ret
    case Next(next) => Some(next)
    case End => None
    case Raised => st
  }

  // ---------------------------------------------------------------- the application

  /** One user's session: the state of each conversation and the shared `user_data`. */
  datatype Session = Session(order: Option<State>, leverage: Option<State>, userData: UserData)

  /** Which registered handler took an update. */
  datatype Handler = StartCommand | CancelCommand | OrderConversation | LeverageConversation | MenuButton | Unhandled

  datatype Dispatched = Dispatched(session: Session, handler: Handler, call: Option<Call>, notice: Notice)

  /**
    `cancel_all_orders`: one call for every linear USDT order, reported as success only
    for `retCode == 0`, otherwise with `retMsg` verbatim; an exception is caught and reported.
   */
  function CancelAllOrders(reply: Reply): (d: (Call, Notice))
    ensures d.0 == CancelAllOrdersCall("linear", "USDT")
    ensures d.1 == OrdersCancelled <==> reply.Response? && reply.retCode == Some(0)
    ensures reply.Response? && reply.retCode != Some(0) ==> d.1 == CancelOrdersFailed(reply.retMsg)
    ensures reply.Raises? ==> d.1 == CancelOrdersError
  {
    var notice :=
      match reply
      case Raises => CancelOrdersError
      case Response(code, msg) => if code == Some(0) then OrdersCancelled else CancelOrdersFailed(msg);
    (CancelAllOrdersCall("linear", "USDT"), notice)
  }

  /**
    The handlers registered outside the two conversations: none of them touches the
    session, and only the `cancel_orders` button makes a state-changing exchange call, with
    `reply` its answer. The read-only queries of the other buttons are not modelled as calls.
   */
  function Elsewhere(s: Session, e: Event, reply: Reply): (d: Dispatched)
    ensures d.session == s
    ensures d.call.Some? <==> e == Callback("cancel_orders")
    ensures d.call.Some? ==> d.handler == MenuButton && (d.call.value, d.notice) == CancelAllOrders(reply)
  {
    if e == Command("start") then Dispatched(s, StartCommand, None, MainMenu)
    else if e == Command("cancel") then Dispatched(s, CancelCommand, None, Cancelled)
    else if e == Callback("cancel_orders") then
      var (call, notice) := CancelAllOrders(reply);
      Dispatched(s, MenuButton, Some(call), notice)
    else if e.Callback? && e.data in {"balance", "positions", "orders", "start"} then
      Dispatched(s, MenuButton, None, Silent)
    else Dispatched(s, Unhandled, None, Silent)
  }

  /**
    One update, with the conversations consulted before the `/start` and `/cancel`
    command handlers (the registration order bot.py:534-535 evidently intends; see
    DispatchAsWritten). The place-order conversation is asked first, then the
    set-leverage one; only the one that takes the update changes its state, `user_data`
    never loses a key (DispatchOnlyAddsKeys), an order or leverage call comes only from
    a text message completing a workflow, and the `cancel_orders` button makes the one
    other call.
   */
  function Dispatch(s: Session, e: Event, env: Env): (d: Dispatched)
    ensures d.handler != OrderConversation ==> d.session.order == s.order
    ensures d.handler != LeverageConversation ==> d.session.leverage == s.leverage
    ensures d.call.Some? && !d.call.value.CancelAllOrdersCall? ==>
              e.Message? && (d.handler == OrderConversation || d.handler == LeverageConversation)
    ensures d.call.Some? && d.call.value.CancelAllOrdersCall? ==> e == Callback("cancel_orders") && d.handler == MenuButton
  {
    match OrderStep(s.order, e, s.userData, env)
    case Some(o) =>
      Dispatched(Session(Advance(s.order, o.ret), s.leverage, o.userData), OrderConversation, o.call, o.notice)
    case None =>
      match LeverageStep(s.leverage, e, s.userData, env)
      case Some(o) =>
        Dispatched(Session(s.order, Advance(s.leverage, o.ret), o.userData), LeverageConversation, o.call, o.notice)
      case None => Elsewhere(s, e, env.reply)
  }

  /** Dispatch when the set-leverage conversation takes the update. */
  lemma DispatchToLeverage(s: Session, e: Event, env: Env)
    requires OrderStep(s.order, e, s.userData, env).None? && LeverageStep(s.leverage, e, s.userData, env).Some?
    ensures var o := LeverageStep(s.leverage, e, s.userData, env).value;
            Dispatch(s, e, env) ==
            Dispatched(Session(s.order, Advance(s.leverage, o.ret), o.userData), LeverageConversation, o.call, o.notice)
  {
  }

  /**
    One update as bot.py:534-594 registers the handlers: the `/start` and `/cancel`
    command handlers come first in the same group, so they take every `/start` and
    `/cancel` before a conversation can see it.
   */
  function DispatchAsWritten(s: Session, e: Event, env: Env): (d: Dispatched)
    ensures e == Command("cancel") ==> d == Dispatched(s, CancelCommand, None, Cancelled)
    ensures e != Command("cancel") && e != Command("start") ==> d == Dispatch(s, e, env)
  {
    if e == Command("start") || e == Command("cancel") then Elsewhere(s, e, env.reply) else Dispatch(s, e, env)
  }

  /** No update removes a key from `user_data`, and the set-leverage conversation writes at most the symbol. */
  lemma DispatchOnlyAddsKeys(s: Session, e: Event, env: Env)
    ensures s.userData.Keys <= Dispatch(s, e, env).session.userData.Keys
    ensures Dispatch(s, e, env).handler == LeverageConversation ==>
              WritesAtMost(s.userData, Dispatch(s, e, env).session.userData, SymbolKey)
  {
  }

  // ---------------------------------------------------------------- the session invariant

  /** Each key holds the kind of value its handler stores. */
  predicate Typed(u: UserData) {
    && (SymbolKey in u ==> u[SymbolKey].Str?)
    && (OrderTypeKey in u ==> u[OrderTypeKey].Str?)
    && (SideKey in u ==> u[SideKey].Str?)
    && (QuantityKey in u ==> u[QuantityKey].Num?)
    && (PriceKey in u ==> u[PriceKey].Num?)
  }

  /** What the place-order conversation's state guarantees about `user_data`. */
  predicate OrderReady(st: Option<State>, u: UserData) {
    match st
    case None => true
    case Some(Symbol) => true
    case Some(OrderType) => SymbolKey in u
    case Some(Side) => SymbolKey in u && OrderTypeKey in u
    case Some(Quantity) => SymbolKey in u && OrderTypeKey in u && SideKey in u
    case Some(Price) =>
      SymbolKey in u && OrderTypeKey in u && SideKey in u && QuantityKey in u && u[OrderTypeKey] == Str("limit")
    case Some(Leverage) => false
  }

  /** What the set-leverage conversation's state guarantees about `user_data`. */
  predicate LeverageReady(st: Option<State>, u: UserData) {
    match st
    case None => true
    case Some(Symbol) => true
    case Some(Leverage) => SymbolKey in u
    case Some(_) => false
  }

  predicate WellFormed(s: Session) {
    Typed(s.userData) && OrderReady(s.order, s.userData) && LeverageReady(s.leverage, s.userData)
  }

  /** A fresh user: no conversation, empty `user_data`. */
  lemma InitialWellFormed()
    ensures WellFormed(Session(None, None, map[]))
  {
  }

  /** The tag of every callback pattern is free of `_`, so a matching id always has a second piece. */
  lemma PatternsHaveSecondPiece(data: string)
    ensures StartsWith(data, "symbol_") ==> |Split(data, '_')| >= 2
    ensures StartsWith(data, "type_") ==> |Split(data, '_')| >= 2
    ensures StartsWith(data, "side_") ==> |Split(data, '_')| >= 2
    ensures StartsWith(data, "leverage_") ==> |Split(data, '_')| >= 2
  {
    if StartsWith(data, "symbol_") {
      assert "symbol" + "_" == "symbol_";
      SplitTagged(data, "symbol");
    }
    if StartsWith(data, "type_") {
      assert "type" + "_" == "type_";
      SplitTagged(data, "type");
    }
    if StartsWith(data, "side_") {
      assert "side" + "_" == "side_";
      SplitTagged(data, "side");
    }
    if StartsWith(data, "leverage_") {
      assert "leverage" + "_" == "leverage_";
      SplitTagged(data, "leverage");
    }
  }

  /** In a well-formed session no place-order callback raises: every key it reads was stored by an earlier step. */
  lemma OrderStepDoesNotRaise(s: Session, e: Event, env: Env)
    requires WellFormed(s) && OrderStep(s.order, e, s.userData, env).Some?
    ensures OrderStep(s.order, e, s.userData, env).value.ret != Raised
  {
    if e.Callback? { PatternsHaveSecondPiece(e.data); }
  }

  /** In a well-formed session a set-leverage callback raises only when the exchange call itself raises. */
  lemma LeverageStepRaisesOnlyFromCall(s: Session, e: Event, env: Env)
    requires WellFormed(s) && LeverageStep(s.leverage, e, s.userData, env).Some?
    ensures LeverageStep(s.leverage, e, s.userData, env).value.ret == Raised ==>
              env.reply.Raises? && LeverageStep(s.leverage, e, s.userData, env).value.call.Some?
  {
    if e.Callback? { PatternsHaveSecondPiece(e.data); }
  }

  /** The session after the place-order conversation took an update with outcome `o`. */
  function AfterOrderStep(s: Session, o: Outcome): Session {
    Session(Advance(s.order, o.ret), s.leverage, o.userData)
  }

  lemma OrderStepKeepsWellFormed(s: Session, e: Event, env: Env)
    requires WellFormed(s) && OrderStep(s.order, e, s.userData, env).Some?
    ensures WellFormed(AfterOrderStep(s, OrderStep(s.order, e, s.userData, env).value))
  {
    match s.order
    case None =>
    case Some(Symbol) => OrderStepInState(s, e, env, "symbol_");
    case Some(OrderType) => OrderStepInState(s, e, env, "type_");
    case Some(Side) => OrderStepInState(s, e, env, "side_");
    case Some(Quantity) => OrderStepInState(s, e, env, "");
    case Some(Price) => OrderStepInState(s, e, env, "");
    case Some(Leverage) =>
  }

  /** The place-order conversation in a state with a callback pattern (or a text handler, for an empty pattern). */
  lemma OrderStepInState(s: Session, e: Event, env: Env, pattern: string)
    requires WellFormed(s) && OrderStep(s.order, e, s.userData, env).Some?
    requires s.order == Some(Symbol) ==> pattern == "symbol_"
    requires s.order == Some(OrderType) ==> pattern == "type_"
    requires s.order == Some(Side) ==> pattern == "side_"
    ensures WellFormed(AfterOrderStep(s, OrderStep(s.order, e, s.userData, env).value))
  {
    var u := s.userData;
    if e == Callback("back_to_menu") || e == Command("cancel") {
    } else if e.Callback? && StartsWith(e.data, pattern) && s.order == Some(Symbol) {
      PatternsHaveSecondPiece(e.data);
      SymbolChosen(s, e.data);
    } else if e.Callback? && StartsWith(e.data, pattern) && s.order == Some(OrderType) {
      PatternsHaveSecondPiece(e.data);
      TypeChosen(s, e.data);
    } else if e.Callback? && StartsWith(e.data, pattern) && s.order == Some(Side) {
      PatternsHaveSecondPiece(e.data);
      SideChosen(s, e.data);
    } else if e.Message? && s.order == Some(Quantity) {
      QuantityTyped(s, e.text, env);
    } else if e.Message? && s.order == Some(Price) {
      PriceTyped(s, e.text, env);
    }
  }

  lemma SymbolChosen(s: Session, data: string)
    requires WellFormed(s) && s.order == Some(Symbol) && StartsWith(data, "symbol_") && |Split(data, '_')| >= 2
    ensures WellFormed(AfterOrderStep(s, SelectOrderType(data, s.userData)))
  {
    BackMatchesNoPattern();
  }

  lemma TypeChosen(s: Session, data: string)
    requires WellFormed(s) && s.order == Some(OrderType) && StartsWith(data, "type_") && |Split(data, '_')| >= 2
    ensures WellFormed(AfterOrderStep(s, SelectSide(data, s.userData)))
  {
    BackMatchesNoPattern();
  }

  lemma SideChosen(s: Session, data: string)
    requires WellFormed(s) && s.order == Some(Side) && StartsWith(data, "side_") && |Split(data, '_')| >= 2
    ensures WellFormed(AfterOrderStep(s, EnterQuantity(data, s.userData)))
  {
    BackMatchesNoPattern();
  }

  lemma QuantityTyped(s: Session, text: string, env: Env)
    requires WellFormed(s) && s.order == Some(Quantity)
    ensures WellFormed(AfterOrderStep(s, HandleQuantity(text, s.userData, env)))
  {
  }

  lemma PriceTyped(s: Session, text: string, env: Env)
    requires WellFormed(s) && s.order == Some(Price)
    ensures WellFormed(AfterOrderStep(s, HandlePrice(text, s.userData, env)))
  {
  }

  lemma LeverageStepKeepsWellFormed(s: Session, e: Event, env: Env)
    requires WellFormed(s) && LeverageStep(s.leverage, e, s.userData, env).Some?
    ensures var o := LeverageStep(s.leverage, e, s.userData, env).value;
            WellFormed(Session(s.order, Advance(s.leverage, o.ret), o.userData))
  {
    if e.Callback? { PatternsHaveSecondPiece(e.data); }
  }

  /** Every update, under either registration order, keeps the session well formed. */
  lemma DispatchKeepsWellFormed(s: Session, e: Event, env: Env)
    requires WellFormed(s)
    ensures WellFormed(Dispatch(s, e, env).session)
    ensures WellFormed(DispatchAsWritten(s, e, env).session)
  {
    if OrderStep(s.order, e, s.userData, env).Some? {
      OrderStepKeepsWellFormed(s, e, env);
    } else if LeverageStep(s.leverage, e, s.userData, env).Some? {
      LeverageStepKeepsWellFormed(s, e, env);
    }
  }

  // ---------------------------------------------------------------- what the workflows guarantee

  /**
    An order is placed only by the text that completes the workflow, and the request
    carries what `user_data` holds: the side and type chosen on the way, the symbol
    stored last, the quantity just typed for a market order, or the stored quantity and
    the price just typed for a limit order. A price left over from an earlier order never
    reaches a non-limit request, and a limit request never lacks one. The symbol is
    shared with the set-leverage workflow, which may have overwritten it since the pair
    was chosen (LeverageSymbolLeaksIntoOrder).
   */
  lemma OrderRequestFromThisWorkflow(s: Session, e: Event, env: Env)
    requires WellFormed(s)
    requires Dispatch(s, e, env).call.Some? && Dispatch(s, e, env).call.value.PlaceOrderCall?
    ensures e.Message? && Dispatch(s, e, env).handler == OrderConversation
    ensures s.order == Some(Quantity) || s.order == Some(Price)
    ensures env.parseFloat(e.text).Some?
    ensures var r := Dispatch(s, e, env).call.value.request;
            && r.category == "linear" && r.symbol == s.userData[SymbolKey]
            && r.side == Upper(s.userData[SideKey].s) && r.orderType == Upper(s.userData[OrderTypeKey].s)
            && (r.price.Some? <==> s.userData[OrderTypeKey] == Str("limit"))
    ensures var r := Dispatch(s, e, env).call.value.request;
            s.order == Some(Quantity) ==> r.qty == Num(env.parseFloat(e.text).value) && r.price == None
    ensures var r := Dispatch(s, e, env).call.value.request;
            s.order == Some(Price) ==> r.qty == s.userData[QuantityKey] && r.price == Some(Num(env.parseFloat(e.text).value))
  {
  }

  /**
    The place-order path: from idle, the entry button, a pair, an order type and a
    side lead through SYMBOL, ORDER_TYPE, SIDE to QUANTITY, each step storing the
    piece of its button's id after the first `_` (up to any further `_`), and
    nothing is sent to the exchange on the way.
   */
  lemma PlaceOrderPath(s: Session, pair: string, kind: string, side: string, env: Env)
    requires s.order == None
    ensures var d1 := Dispatch(s, Callback("place_order"), env);
            var d2 := Dispatch(d1.session, Callback("symbol_" + pair), env);
            var d3 := Dispatch(d2.session, Callback("type_" + kind), env);
            var d4 := Dispatch(d3.session, Callback("side_" + side), env);
            && d1.session == s.(order := Some(Symbol))
            && d2.session == s.(order := Some(OrderType), userData := s.userData[SymbolKey := Str(Split(pair, '_')[0])])
            && d3.session == d2.session.(order := Some(Side),
                                         userData := d2.session.userData[OrderTypeKey := Str(Split(kind, '_')[0])])
            && d4.session == d3.session.(order := Some(Quantity),
                                         userData := d3.session.userData[SideKey := Str(Split(side, '_')[0])])
            && d1.call == None && d2.call == None && d3.call == None && d4.call == None
  {
    var d1 := Dispatch(s, Callback("place_order"), env);
    EnterOrder(s, env);
    ChoosePair(d1.session, pair, env);
    var d2 := Dispatch(d1.session, Callback("symbol_" + pair), env);
    ChooseType(d2.session, kind, env);
    var d3 := Dispatch(d2.session, Callback("type_" + kind), env);
    ChooseSide(d3.session, side, env);
  }

  lemma EnterOrder(s: Session, env: Env)
    requires s.order == None
    ensures Dispatch(s, Callback("place_order"), env) == Dispatched(s.(order := Some(Symbol)), OrderConversation, None, Prompt)
  {
  }

  lemma ChoosePair(s: Session, pair: string, env: Env)
    requires s.order == Some(Symbol)
    ensures var d := Dispatch(s, Callback("symbol_" + pair), env);
            d.call == None &&
            d.session == s.(order := Some(OrderType), userData := s.userData[SymbolKey := Str(Split(pair, '_')[0])])
  {
    var data := "symbol_" + pair;
    assert "symbol" + "_" == "symbol_";
    TaggedId("symbol", pair);
    assert data != "back_to_menu" by { BackMatchesNoPattern(); }
    assert OrderStep(s.order, Callback(data), s.userData, env) == Some(SelectOrderType(data, s.userData));
  }

  lemma ChooseType(s: Session, kind: string, env: Env)
    requires s.order == Some(OrderType)
    ensures var d := Dispatch(s, Callback("type_" + kind), env);
            d.call == None &&
            d.session == s.(order := Some(Side), userData := s.userData[OrderTypeKey := Str(Split(kind, '_')[0])])
  {
    var data := "type_" + kind;
    assert "type" + "_" == "type_";
    TaggedId("type", kind);
    assert data != "back_to_menu" by { BackMatchesNoPattern(); }
    assert OrderStep(s.order, Callback(data), s.userData, env) == Some(SelectSide(data, s.userData));
  }

  lemma ChooseSide(s: Session, side: string, env: Env)
    requires s.order == Some(Side) && SymbolKey in s.userData && s.userData[SymbolKey].Str?
    ensures var d := Dispatch(s, Callback("side_" + side), env);
            d.call == None &&
            d.session == s.(order := Some(Quantity), userData := s.userData[SideKey := Str(Split(side, '_')[0])])
  {
    var data := "side_" + side;
    assert "side" + "_" == "side_";
    TaggedId("side", side);
    assert data != "back_to_menu" by { BackMatchesNoPattern(); }
    assert OrderStep(s.order, Callback(data), s.userData, env) == Some(EnterQuantity(data, s.userData));
  }

  /** A button id made of a `_`-free tag, `_` and a payload matches the tag's pattern and stores the payload's first piece. */
  lemma TaggedId(tag: string, payload: string)
    requires '_' !in tag
    ensures StartsWith(tag + "_" + payload, tag + "_")
    ensures |Split(tag + "_" + payload, '_')| >= 2 && Split(tag + "_" + payload, '_')[1] == Split(payload, '_')[0]
  {
    var data := tag + "_" + payload;
    assert data[..|tag + "_"|] == tag + "_";
    SplitTagged(data, tag);
    assert data[|tag| + 1..] == payload;
  }

  /**
    The set-leverage path: the entry button and a pair lead through SYMBOL to LEVERAGE,
    storing the pair, with no exchange call. Whatever state the order workflow is in
    is left as it is.
   */
  lemma SetLeveragePath(s: Session, pair: string, env: Env)
    requires s.leverage == None
    ensures var d1 := Dispatch(s, Callback("set_leverage"), env);
            var d2 := Dispatch(d1.session, Callback("leverage_" + pair), env);
            && d1.session == s.(leverage := Some(Symbol))
            && d2.session == s.(leverage := Some(Leverage), userData := s.userData[SymbolKey := Str(Split(pair, '_')[0])])
            && d1.call == None && d2.call == None
  {
    if s.order.Some? {
      OrderIgnoresLeverageButton(s.order.value, s.userData, env);
    }
    DispatchToLeverage(s, Callback("set_leverage"), env);
    ChooseLeveragePair(s.(leverage := Some(Symbol)), pair, env);
  }

  /** A pair button in the set-leverage SYMBOL state stores the pair, whatever the order workflow's state. */
  lemma ChooseLeveragePair(s: Session, pair: string, env: Env)
    requires s.leverage == Some(Symbol)
    ensures var d := Dispatch(s, Callback("leverage_" + pair), env);
            d.call == None &&
            d.session == s.(leverage := Some(Leverage), userData := s.userData[SymbolKey := Str(Split(pair, '_')[0])])
  {
    var data := "leverage_" + pair;
    assert "leverage" + "_" == "leverage_";
    TaggedId("leverage", pair);
    OrderIgnoresLeverageChoice(s.order, pair, s.userData, env);
    assert LeverageStep(Some(Symbol), Callback(data), s.userData, env) == Some(EnterLeverage(data, s.userData));
    DispatchToLeverage(s, Callback(data), env);
  }

  /** No state of the place-order conversation takes a leverage pair button. */
  lemma OrderIgnoresLeverageChoice(st: Option<State>, pair: string, u: UserData, env: Env)
    ensures OrderStep(st, Callback("leverage_" + pair), u, env) == None
  {
    var data := "leverage_" + pair;
    assert data[0] == 'l';
    assert !StartsWith(data, "symbol_") by { assert data[0] != "symbol_"[0]; }
    assert !StartsWith(data, "type_") by { assert data[0] != "type_"[0]; }
    assert !StartsWith(data, "side_") by { assert data[0] != "side_"[0]; }
    assert data != "back_to_menu" by { assert data[0] != "back_to_menu"[0]; }
    assert data != "place_order" by { assert data[0] != "place_order"[0]; }
  }

  /**
    `back_to_menu` and `/cancel` (once the conversations see it) end a workflow from
    every state: the place-order workflow when it is active, otherwise the set-leverage
    one. Nothing is sent to the exchange and `user_data` keeps what it held.
   */
  lemma NavigationEndsWorkflow(s: Session, e: Event, env: Env)
    requires e == Callback("back_to_menu") || e == Command("cancel")
    requires s.order.Some? || s.leverage.Some?
    ensures var d := Dispatch(s, e, env);
            && d.call == None && d.session.userData == s.userData
            && (s.order.Some? ==> d.session == s.(order := None) && d.handler == OrderConversation)
            && (s.order.None? ==> d.session == s.(leverage := None) && d.handler == LeverageConversation)
  {
  }

  /**
    With no workflow active, every update other than the two entry buttons changes
    nothing, and only the `cancel_orders` button makes a state-changing exchange call.
   */
  lemma IdleSessionIgnoresInput(s: Session, e: Event, env: Env)
    requires s.order == None && s.leverage == None
    requires e != Callback("place_order") && e != Callback("set_leverage")
    ensures Dispatch(s, e, env).session == s
    ensures Dispatch(s, e, env).call.Some? <==> e == Callback("cancel_orders")
    ensures DispatchAsWritten(s, e, env).session == s
    ensures DispatchAsWritten(s, e, env).call.Some? <==> e == Callback("cancel_orders")
  {
  }

  // ---------------------------------------------------------------- worked traces

  /** A typed text in QUANTITY goes to `handle_quantity`, whose outcome becomes the session's. */
  lemma TypeQuantity(s: Session, text: string, env: Env)
    requires s.order == Some(Quantity)
    ensures var o := HandleQuantity(text, s.userData, env);
            Dispatch(s, Message(text), env) ==
            Dispatched(Session(Advance(s.order, o.ret), s.leverage, o.userData), OrderConversation, o.call, o.notice)
  {
    assert OrderStep(s.order, Message(text), s.userData, env) == Some(HandleQuantity(text, s.userData, env));
  }

  /** A typed text in PRICE goes to `handle_price`. */
  lemma TypePrice(s: Session, text: string, env: Env)
    requires s.order == Some(Price)
    ensures var o := HandlePrice(text, s.userData, env);
            Dispatch(s, Message(text), env) ==
            Dispatched(Session(Advance(s.order, o.ret), s.leverage, o.userData), OrderConversation, o.call, o.notice)
  {
    assert OrderStep(s.order, Message(text), s.userData, env) == Some(HandlePrice(text, s.userData, env));
  }

  /** A typed text in LEVERAGE goes to `handle_leverage` unless the order workflow is waiting for text itself. */
  lemma TypeLeverage(s: Session, text: string, env: Env)
    requires s.leverage == Some(Leverage) && s.order != Some(Quantity) && s.order != Some(Price)
    ensures var o := HandleLeverage(text, s.userData, env);
            Dispatch(s, Message(text), env) ==
            Dispatched(Session(s.order, Advance(s.leverage, o.ret), o.userData), LeverageConversation, o.call, o.notice)
  {
    assert OrderStep(s.order, Message(text), s.userData, env) == None;
    assert LeverageStep(s.leverage, Message(text), s.userData, env) == Some(HandleLeverage(text, s.userData, env));
  }

  /** A number reader that knows the few texts the traces type. */
  function Reader(t: string): Option<real> {
    if t == "0.01" then Some(0.01) else if t == "50000" then Some(50000.0) else if t == "1" then Some(1.0) else None
  }

  function IntReader(t: string): Option<int> {
    if t == "150" then Some(150) else if t == "25" then Some(25) else None
  }

  /** The standard sides upper-case to the exchange's words. */
  lemma StandardSidesUpperCase()
    ensures Upper("buy") == "BUY" && Upper("sell") == "SELL"
  {
    assert "buy"[1..] == "uy" && "uy"[1..] == "y";
    assert "sell"[1..] == "ell" && "ell"[1..] == "ll" && "ll"[1..] == "l";
  }

  /** The standard order types upper-case to the exchange's words. */
  lemma StandardTypesUpperCase()
    ensures Upper("market") == "MARKET" && Upper("limit") == "LIMIT"
  {
    assert "market"[1..] == "arket" && "arket"[1..] == "rket" && "rket"[1..] == "ket";
    assert "ket"[1..] == "et" && "et"[1..] == "t";
    assert "limit"[1..] == "imit" && "imit"[1..] == "mit" && "mit"[1..] == "it" && "it"[1..] == "t";
  }

  /** `user_data` holding the symbol `pair`, the order type `kind` and the side of the Long button. */
  function BuyChoices(pair: string, kind: string): UserData {
    map[SymbolKey := Str(pair), OrderTypeKey := Str(kind), SideKey := Str("buy")]
  }

  /** `user_data` after the BTC/USDT button, the button for order type `kind`, and Long. */
  function ButtonsBuy(kind: string): UserData {
    BuyChoices("BTCUSDT", kind)
  }

  /** The request a market buy of `pair` produces. */
  lemma MarketBuyRequest(pair: string, quantity: real)
    ensures BuildRequest(BuyChoices(pair, "market")[QuantityKey := Num(quantity)])
         == Some(OrderRequest("linear", Str(pair), "BUY", "MARKET", Num(quantity), None))
  {
    StandardSidesUpperCase();
    StandardTypesUpperCase();
  }

  /** The request a limit buy on the standard buttons produces. */
  lemma LimitBuyRequest(quantity: real, price: real)
    ensures BuildRequest(ButtonsBuy("limit")[QuantityKey := Num(quantity)][PriceKey := Num(price)])
         == Some(OrderRequest("linear", Str("BTCUSDT"), "BUY", "LIMIT", Num(quantity), Some(Num(price))))
  {
    StandardSidesUpperCase();
    StandardTypesUpperCase();
  }

  /** The session after the four buttons of an order: pair, type and side stored, waiting for the quantity. */
  lemma OrderButtons(pair: string, kind: string, side: string, env: Env)
    requires '_' !in pair && '_' !in kind && '_' !in side
    ensures Dispatch(Dispatch(Dispatch(Dispatch(Session(None, None, map[]), Callback("place_order"), env).session,
              Callback("symbol_" + pair), env).session, Callback("type_" + kind), env).session,
              Callback("side_" + side), env).session ==
            Session(Some(Quantity), None, map[SymbolKey := Str(pair), OrderTypeKey := Str(kind), SideKey := Str(side)])
  {
    PlaceOrderPath(Session(None, None, map[]), pair, kind, side, env);
    SplitWithoutSeparator(pair, '_');
    SplitWithoutSeparator(kind, '_');
    SplitWithoutSeparator(side, '_');
  }

  /** On the standard buttons, a limit buy's parsed quantity is stored and the workflow waits for the price. */
  lemma LimitQuantityWaits(text: string, quantity: real, env: Env)
    requires env.parseFloat(text) == Some(quantity)
    ensures Dispatch(Session(Some(Quantity), None, ButtonsBuy("limit")), Message(text), env) ==
            Dispatched(Session(Some(Price), None, ButtonsBuy("limit")[QuantityKey := Num(quantity)]), OrderConversation, None, Prompt)
  {
    TypeQuantity(Session(Some(Quantity), None, ButtonsBuy("limit")), text, env);
  }

  /** A limit buy's parsed price sends the limit request and ends the workflow. */
  lemma LimitPricePlaces(text: string, quantity: real, price: real, env: Env)
    requires env.parseFloat(text) == Some(price)
    ensures var u := ButtonsBuy("limit")[QuantityKey := Num(quantity)];
            Dispatch(Session(Some(Price), None, u), Message(text), env) ==
            Dispatched(Session(None, None, u[PriceKey := Num(price)]), OrderConversation,
                       Some(PlaceOrderCall(OrderRequest("linear", Str("BTCUSDT"), "BUY", "LIMIT", Num(quantity), Some(Num(price))))),
                       OrderReport(env.reply))
  {
    var u := ButtonsBuy("limit")[QuantityKey := Num(quantity)];
    TypePrice(Session(Some(Price), None, u), text, env);
    LimitBuyRequest(quantity, price);
  }

  /**
    A market buy's parsed quantity sends the market request for the stored symbol at
    once and ends the workflow, whatever the set-leverage conversation is doing.
   */
  lemma MarketQuantityPlaces(text: string, quantity: real, pair: string, leverage: Option<State>, env: Env)
    requires env.parseFloat(text) == Some(quantity)
    ensures Dispatch(Session(Some(Quantity), leverage, BuyChoices(pair, "market")), Message(text), env) ==
            Dispatched(Session(None, leverage, BuyChoices(pair, "market")[QuantityKey := Num(quantity)]), OrderConversation,
                       Some(PlaceOrderCall(OrderRequest("linear", Str(pair), "BUY", "MARKET", Num(quantity), None))),
                       OrderReport(env.reply))
  {
    TypeQuantity(Session(Some(Quantity), leverage, BuyChoices(pair, "market")), text, env);
    assert Str("market") != Str("limit");
    MarketBuyRequest(pair, quantity);
  }

  /**
    A limit buy of 0.01 BTCUSDT at 50000, from the session the four buttons lead to
    (OrderButtons): the quantity text moves to PRICE, and the price text sends exactly
    the request below and ends the workflow; the exchange's answer decides only the notice.
   */
  lemma LimitBuyTrace(code: int, msg: string)
    ensures var env := Env(Reader, IntReader, Response(Some(code), Some(msg)));
            var d5 := Dispatch(Session(Some(Quantity), None, ButtonsBuy("limit")), Message("0.01"), env);
            var d6 := Dispatch(d5.session, Message("50000"), env);
            && d5.session.order == Some(Price) && d5.call == None
            && d6.session.order == None
            && d6.call == Some(PlaceOrderCall(OrderRequest("linear", Str("BTCUSDT"), "BUY", "LIMIT", Num(0.01), Some(Num(50000.0)))))
            && (d6.notice == OrderPlaced <==> code == 0)
  {
    var env := Env(Reader, IntReader, Response(Some(code), Some(msg)));
    assert env.parseFloat("0.01") == Some(0.01);
    LimitQuantityWaits("0.01", 0.01, env);
    assert env.parseFloat("50000") == Some(50000.0);
    LimitPricePlaces("50000", 0.01, 50000.0, env);
  }

  /**
    Leverage 150 for ETHUSDT is refused and the workflow keeps waiting; 25 then sends
    one call with "25" for both legs and ends it.
   */
  lemma LeverageTrace()
    ensures var env := Env(Reader, IntReader, Response(Some(0), Some("OK")));
            var s2 := Session(None, Some(Leverage), map[SymbolKey := Str("ETHUSDT")]);
            var d3 := Dispatch(s2, Message("150"), env);
            var d4 := Dispatch(d3.session, Message("25"), env);
            && d3.session == s2 && d3.call == None && d3.notice == LeverageOutOfRange
            && d4.session.leverage == None && d4.notice == LeverageSet(25)
            && d4.call == Some(SetLeverageCall("linear", Str("ETHUSDT"), "25", "25"))
  {
    var env := Env(Reader, IntReader, Response(Some(0), Some("OK")));
    var s2 := Session(None, Some(Leverage), map[SymbolKey := Str("ETHUSDT")]);
    TypeLeverage(s2, "150", env);
    assert env.parseInt("150") == Some(150);
    TypeLeverage(s2, "25", env);
    assert env.parseInt("25") == Some(25);
    assert DecimalString(25) == "25" by { assert DecimalString(2) == "2"; }
  }

  /**
    Both workflows can be active at once: the leverage button, pressed while an order
    is under way in any state, starts the second workflow alongside the first.
   */
  lemma BothWorkflowsActive(s: Session, env: Env)
    requires s.order.Some? && s.leverage == None
    ensures Dispatch(s, Callback("set_leverage"), env) ==
            Dispatched(s.(leverage := Some(Symbol)), LeverageConversation, None, Prompt)
  {
    OrderIgnoresLeverageButton(s.order.value, s.userData, env);
    DispatchToLeverage(s, Callback("set_leverage"), env);
  }

  /** No state of the place-order conversation takes the leverage button. */
  lemma OrderIgnoresLeverageButton(st: State, u: UserData, env: Env)
    ensures OrderStep(Some(st), Callback("set_leverage"), u, env) == None
  {
    var data := "set_leverage";
    assert !StartsWith(data, "symbol_") by { assert data[1] != "symbol_"[1]; }
    assert !StartsWith(data, "type_") by { assert data[0] != "type_"[0]; }
    assert !StartsWith(data, "side_") by { assert data[1] != "side_"[1]; }
    assert data != "back_to_menu" by { assert data[0] != "back_to_menu"[0]; }
  }

  /**
    The two workflows share `user_data['symbol']`. With a market buy of BTCUSDT waiting
    for its quantity, setting up leverage for ETHUSDT overwrites the stored symbol, and
    the quantity typed next (which the order workflow takes, not the leverage one) places
    a market buy of ETHUSDT. The leverage workflow is left waiting in LEVERAGE.
   */
  lemma LeverageSymbolLeaksIntoOrder()
    ensures var env := Env(Reader, IntReader, Response(Some(0), Some("OK")));
            var s4 := Session(Some(Quantity), None, ButtonsBuy("market"));
            var d5 := Dispatch(s4, Callback("set_leverage"), env);
            var d6 := Dispatch(d5.session, Callback("leverage_" + "ETHUSDT"), env);
            var d7 := Dispatch(d6.session, Message("1"), env);
            && d6.session == Session(Some(Quantity), Some(Leverage), BuyChoices("ETHUSDT", "market"))
            && d7.handler == OrderConversation && d7.session.leverage == Some(Leverage)
            && d7.call == Some(PlaceOrderCall(OrderRequest("linear", Str("ETHUSDT"), "BUY", "MARKET", Num(1.0), None)))
  {
    var env := Env(Reader, IntReader, Response(Some(0), Some("OK")));
    var s4 := Session(Some(Quantity), None, ButtonsBuy("market"));
    BothWorkflowsActive(s4, env);
    LeveragePairOverwritesSymbol("ETHUSDT", env);
    assert env.parseFloat("1") == Some(1.0);
    MarketQuantityPlaces("1", 1.0, "ETHUSDT", Some(Leverage), env);
  }

  /** A leverage pair button, pressed while a BTCUSDT market buy waits for its quantity, replaces the stored symbol. */
  lemma LeveragePairOverwritesSymbol(pair: string, env: Env)
    requires '_' !in pair
    ensures Dispatch(Session(Some(Quantity), Some(Symbol), ButtonsBuy("market")), Callback("leverage_" + pair), env).session
         == Session(Some(Quantity), Some(Leverage), BuyChoices(pair, "market"))
  {
    ChooseLeveragePair(Session(Some(Quantity), Some(Symbol), ButtonsBuy("market")), pair, env);
    SplitWithoutSeparator(pair, '_');
    assert ButtonsBuy("market")[SymbolKey := Str(pair)] == BuyChoices(pair, "market");
  }

  // ---------------------------------------------------------------- the /cancel finding

  /** Button presses are not commands, so the registration order does not matter for the four buttons of an order. */
  lemma OrderButtonsAsWritten(pair: string, kind: string, side: string, env: Env)
    requires '_' !in pair && '_' !in kind && '_' !in side
    ensures DispatchAsWritten(DispatchAsWritten(DispatchAsWritten(DispatchAsWritten(Session(None, None, map[]),
              Callback("place_order"), env).session, Callback("symbol_" + pair), env).session,
              Callback("type_" + kind), env).session, Callback("side_" + side), env).session ==
            Session(Some(Quantity), None, map[SymbolKey := Str(pair), OrderTypeKey := Str(kind), SideKey := Str(side)])
  {
    var s1 := Dispatch(Session(None, None, map[]), Callback("place_order"), env).session;
    var s2 := Dispatch(s1, Callback("symbol_" + pair), env).session;
    var s3 := Dispatch(s2, Callback("type_" + kind), env).session;
    assert DispatchAsWritten(Session(None, None, map[]), Callback("place_order"), env).session == s1;
    assert DispatchAsWritten(s1, Callback("symbol_" + pair), env).session == s2;
    assert DispatchAsWritten(s2, Callback("type_" + kind), env).session == s3;
    assert DispatchAsWritten(s3, Callback("side_" + side), env) == Dispatch(s3, Callback("side_" + side), env);
    OrderButtons(pair, kind, side, env);
  }

  /**
    As registered, `/cancel` in the middle of a market buy (the session the four buttons
    lead to, OrderButtonsAsWritten) is answered "Operation cancelled." by the global
    command handler, yet the order workflow stays in QUANTITY: the next number places
    the order.
   */
  lemma CancelIgnoredAsWritten()
    ensures var env := Env(Reader, IntReader, Response(Some(0), Some("OK")));
            var s4 := Session(Some(Quantity), None, ButtonsBuy("market"));
            var d5 := DispatchAsWritten(s4, Command("cancel"), env);
            var d6 := DispatchAsWritten(d5.session, Message("1"), env);
            && d5.notice == Cancelled && d5.session == s4
            && d6.call == Some(PlaceOrderCall(OrderRequest("linear", Str("BTCUSDT"), "BUY", "MARKET", Num(1.0), None)))
  {
    var env := Env(Reader, IntReader, Response(Some(0), Some("OK")));
    var s4 := Session(Some(Quantity), None, ButtonsBuy("market"));
    assert DispatchAsWritten(s4, Command("cancel"), env) == Dispatched(s4, CancelCommand, None, Cancelled);
    assert DispatchAsWritten(s4, Message("1"), env) == Dispatch(s4, Message("1"), env);
    assert env.parseFloat("1") == Some(1.0);
    MarketQuantityPlaces("1", 1.0, "BTCUSDT", None, env);
  }

  /**
    With the conversations consulted first, `/cancel` in the same session (OrderButtons)
    ends the active workflow, and the number that follows places nothing: it reaches no
    handler that calls the exchange.
   */
  lemma CancelEndsWorkflow()
    ensures var env := Env(Reader, IntReader, Response(Some(0), Some("OK")));
            var s4 := Session(Some(Quantity), None, ButtonsBuy("market"));
            var d5 := Dispatch(s4, Command("cancel"), env);
            var d6 := Dispatch(d5.session, Message("1"), env);
            && d5.notice == Cancelled && d5.session == s4.(order := None)
            && d6.call == None && d6.session == d5.session
  {
    var env := Env(Reader, IntReader, Response(Some(0), Some("OK")));
    var s4 := Session(Some(Quantity), None, ButtonsBuy("market"));
    NavigationEndsWorkflow(s4, Command("cancel"), env);
    IdleSessionIgnoresInput(s4.(order := None), Message("1"), env);
  }
}
