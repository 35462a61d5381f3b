/**
  The per-user context the handlers mutate: `context.user_data`, written one key per
  step, and the current state of each conversation, which the chat library updates
  from a callback's return value. Each handler is a method that changes the context
  in place and is proved to do what the corresponding function of `Conversation`
  specifies; `Handle` routes one update the way `Conversation.Dispatch` does.
 */
module Sessions {
  import opened Wrappers
  import opened Strings
  import opened Conversation

  class UserContext {
    var userData: UserData
    var orderState: Option<State>
    var leverageState: Option<State>

    /** The context as a value. */
    function Snapshot(): Session
      reads this
    {
      Session(orderState, leverageState, userData)
    }

    /** A user the bot has not seen: no conversation, empty `user_data`. */
    constructor ()
      ensures Snapshot() == Session(None, None, map[])
      ensures WellFormed(Snapshot())
    {
      userData := map[];
      orderState := None;
      leverageState := None;
    }

    /** `context.user_data[key] = data.split('_')[1]`; an id without `_` raises before anything is written. */
    method StoreChoice(data: string, key: Key, next: State) returns (ret: Return, notice: Notice)
      modifies this`userData
      ensures Outcome(ret, userData, None, notice) == Conversation.StoreChoice(data, key, old(userData), next)
    {
      var parts := Split(data, '_');
      if |parts| < 2 {
        return Raised, Silent;
      }
      userData := userData[key := Str(parts[1])];
      return Next(next), Prompt;
    }

    /** `select_order_type`. */
    method SelectOrderType(data: string) returns (ret: Return, notice: Notice)
      modifies this`userData
      ensures Outcome(ret, userData, None, notice) == Conversation.SelectOrderType(data, old(userData))
    {
      if data == "back_to_menu" {
        return End, MainMenu;
      }
      ret, notice := StoreChoice(data, SymbolKey, OrderType);
    }

    /** `select_side`. */
    method SelectSide(data: string) returns (ret: Return, notice: Notice)
      modifies this`userData
      ensures Outcome(ret, userData, None, notice) == Conversation.SelectSide(data, old(userData))
    {
      if data == "back_to_menu" {
        return End, MainMenu;
      }
      ret, notice := StoreChoice(data, OrderTypeKey, Side);
    }

    /** `enter_quantity`: the side is written before the prompt reads the symbol. */
    method EnterQuantity(data: string) returns (ret: Return, notice: Notice)
      modifies this`userData
      ensures Outcome(ret, userData, None, notice) == Conversation.EnterQuantity(data, old(userData))
    {
      if data == "back_to_menu" {
        return End, MainMenu;
      }
      ret, notice := StoreChoice(data, SideKey, Quantity);
      if ret != Raised && !(SymbolKey in userData && userData[SymbolKey].Str?) {
        ret, notice := Raised, Silent;
      }
    }

    /**
      `place_order`: build the request from `user_data` (the price added only for a limit
      order), send it, and report the reply; it reads the context and changes nothing.
      The request sent has the meaning `Conversation.BuildRequest` gives it.
     */
    method PlaceOrder(reply: Reply) returns (ret: Return, call: Option<Call>, notice: Notice)
      ensures ret == End
      ensures call.Some? <==> Complete(userData)
      ensures call.Some? ==> call.value.PlaceOrderCall? && Some(call.value.request) == BuildRequest(userData)
      ensures call.Some? ==> (call.value.request.price.Some? <==> userData[OrderTypeKey] == Str("limit"))
      ensures call.Some? ==> notice == OrderReport(reply)
      ensures call.None? ==> notice == OrderError
    {
      if !Complete(userData) {
        return End, None, OrderError;
      }
      var request := OrderRequest("linear", userData[SymbolKey], Upper(userData[SideKey].s),
                                  Upper(userData[OrderTypeKey].s), userData[QuantityKey], None);
      if userData[OrderTypeKey] == Str("limit") {
        request := request.(price := Some(userData[PriceKey]));
      }
      return End, Some(PlaceOrderCall(request)), OrderReport(reply);
    }

    /** `handle_quantity`. */
    method HandleQuantity(text: string, env: Env) returns (ret: Return, call: Option<Call>, notice: Notice)
      modifies this`userData
      ensures Outcome(ret, userData, call, notice) == Conversation.HandleQuantity(text, old(userData), env)
    {
      var quantity := env.parseFloat(text);
      if quantity.None? {
        return Next(Quantity), None, InvalidQuantity;
      }
      userData := userData[QuantityKey := Num(quantity.value)];
      if OrderTypeKey !in userData {
        return Raised, None, Silent;
      }
      if userData[OrderTypeKey] == Str("limit") {
        return Next(Price), None, Prompt;
      }
      ret, call, notice := PlaceOrder(env.reply);
    }

    /** `handle_price`. */
    method HandlePrice(text: string, env: Env) returns (ret: Return, call: Option<Call>, notice: Notice)
      modifies this`userData
      ensures Outcome(ret, userData, call, notice) == Conversation.HandlePrice(text, old(userData), env)
    {
      var price := env.parseFloat(text);
      if price.None? {
        return Next(Price), None, InvalidPrice;
      }
      userData := userData[PriceKey := Num(price.value)];
      ret, call, notice := PlaceOrder(env.reply);
    }

    /** `enter_leverage`. */
    method EnterLeverage(data: string) returns (ret: Return, notice: Notice)
      modifies this`userData
      ensures Outcome(ret, userData, None, notice) == Conversation.EnterLeverage(data, old(userData))
    {
      ret, notice := StoreChoice(data, SymbolKey, Leverage);
    }

    /**
      `handle_leverage`: it reads the stored symbol and changes nothing. A text that is
      not an integer or is outside [1, 100] makes no call; an integer in range makes
      exactly one, with `str(leverage)` for both legs.
     */
    method HandleLeverage(text: string, env: Env) returns (ret: Return, call: Option<Call>, notice: Notice)
      ensures Outcome(ret, userData, call, notice) == Conversation.HandleLeverage(text, userData, env)
      ensures call.Some? <==> env.parseInt(text).Some? && 1 <= env.parseInt(text).value <= 100 && SymbolKey in userData
      ensures call.None? && ret != Raised ==> ret == Next(Leverage)
    {
      var parsed := env.parseInt(text);
      if parsed.None? {
        return Next(Leverage), None, InvalidLeverage;
      }
      var leverage := parsed.value;
      if leverage < 1 || leverage > 100 {
        return Next(Leverage), None, LeverageOutOfRange;
      }
      if SymbolKey !in userData {
        return Raised, None, Silent;
      }
      call := Some(SetLeverageCall("linear", userData[SymbolKey], DecimalString(leverage), DecimalString(leverage)));
      match env.reply
      case Raises =>
        ret, notice := Raised, Silent;
      case Response(code, msg) =>
        ret := End;
        notice := if code == Some(0) then LeverageSet(leverage) else LeverageFailed(msg);
    }

    /** The `back_to_menu` handler and the `/cancel` fallback, which every state of both conversations has. */
    static method Navigate(e: Event) returns (taken: bool, ret: Return, notice: Notice)
      ensures taken <==> e == Callback("back_to_menu") || e == Command("cancel")
      ensures e == Callback("back_to_menu") ==> ret == End && notice == MainMenu
      ensures e == Command("cancel") ==> ret == End && notice == Cancelled
    {
      if e == Callback("back_to_menu") {
        return true, End, MainMenu;
      } else if e == Command("cancel") {
        return true, End, Cancelled;
      }
      return false, End, Silent;
    }

    /** The place-order conversation offered one update: whether it takes it, and what its callback does. */
    method OrderCallback(e: Event, env: Env) returns (taken: bool, ret: Return, call: Option<Call>, notice: Notice)
      modifies this`userData
      ensures var r := OrderStep(orderState, e, old(userData), env);
              && (taken <==> r.Some?)
              && (taken ==> Outcome(ret, userData, call, notice) == r.value)
              && (!taken ==> userData == old(userData))
    {
      BackMatchesNoPattern();
      taken, call := true, None;
      match orderState
      case None =>
        if e == Callback("place_order") {
          ret, notice := Next(Symbol), Prompt;
        } else {
          taken, ret, notice := false, End, Silent;
        }
      case Some(state) =>
        if state == Symbol && e.Callback? && StartsWith(e.data, "symbol_") {
          ret, notice := SelectOrderType(e.data);
        } else if state == OrderType && e.Callback? && StartsWith(e.data, "type_") {
          ret, notice := SelectSide(e.data);
        } else if state == Side && e.Callback? && StartsWith(e.data, "side_") {
          ret, notice := EnterQuantity(e.data);
        } else if state == Quantity && e.Message? {
          ret, call, notice := HandleQuantity(e.text, env);
        } else if state == Price && e.Message? {
          ret, call, notice := HandlePrice(e.text, env);
        } else {
          taken, ret, notice := Navigate(e);
        }
    }

    /** The set-leverage conversation offered one update. */
    method LeverageCallback(e: Event, env: Env) returns (taken: bool, ret: Return, call: Option<Call>, notice: Notice)
      modifies this`userData
      ensures var r := LeverageStep(leverageState, e, old(userData), env);
              && (taken <==> r.Some?)
              && (taken ==> Outcome(ret, userData, call, notice) == r.value)
              && (!taken ==> userData == old(userData))
    {
      BackMatchesNoPattern();
      taken, call := true, None;
      match leverageState
      case None =>
        if e == Callback("set_leverage") {
          ret, notice := Next(Symbol), Prompt;
        } else {
          taken, ret, notice := false, End, Silent;
        }
      case Some(state) =>
        if state == Symbol && e.Callback? && StartsWith(e.data, "leverage_") {
          ret, notice := EnterLeverage(e.data);
        } else if state == Leverage && e.Message? {
          ret, call, notice := HandleLeverage(e.text, env);
        } else {
          taken, ret, notice := Navigate(e);
        }
    }

    /**
      One update for this user, under the corrected registration in which the
      conversations are consulted before the `/start` and `/cancel` command handlers
      (`Conversation.Dispatch`; the registration as written is `Conversation.DispatchAsWritten`,
      and the two differ only on those two commands). The context ends as `Dispatch`
      says, and a well-formed context stays well formed.
     */
    method Handle(e: Event, env: Env) returns (handler: Handler, call: Option<Call>, notice: Notice)
      modifies this
      ensures Dispatched(Snapshot(), handler, call, notice) == Dispatch(old(Snapshot()), e, env)
      ensures old(WellFormed(Snapshot())) ==> WellFormed(Snapshot())
    {
      ghost var before := Snapshot();
      var taken, ret;
      taken, ret, call, notice := OrderCallback(e, env);
      if taken {
        orderState := Advance(orderState, ret);
        handler := OrderConversation;
      } else {
        taken, ret, call, notice := LeverageCallback(e, env);
        if taken {
          leverageState := Advance(leverageState, ret);
          handler := LeverageConversation;
        } else {
          var other := Elsewhere(Snapshot(), e, env.reply);
          handler, call, notice := other.handler, other.call, other.notice;
        }
      }
      if WellFormed(before) {
        DispatchKeepsWellFormed(before, e, env);
      }
    }
  }
}
