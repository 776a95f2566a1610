/**
 * The handlers of app/bot/handlers.py as methods over the two stores: each
 * performs the source's calls in the source's order and is proved to end as
 * the corresponding turn of the dialogue model says.
 */
module Handlers {
  import opened Wrappers
  import opened Text
  import opened Json
  import opened Rows
  import opened Clock
  import opened Schemas
  import opened Sheets
  import opened BookingEngine
  import opened Redis
  import opened Dialogue

  /** The loop of `handle_booking` that writes every non-`None` slot into the state. */
  method MergeSlots(state: Object, slots: Object) returns (merged: Object)
    ensures merged == Merge(state, slots)
  {
    merged := state;
    var pending := slots.Keys;
    while pending != {}
      invariant pending <= slots.Keys
      invariant forall k :: k in merged <==> k in state || (k in slots && k !in pending && slots[k] != Null)
      invariant forall k :: k in merged ==>
        merged[k] == if k in slots && k !in pending && slots[k] != Null then slots[k] else state[k]
      decreases pending
    {
      var key :| key in pending;
      var value := slots[key];
      if value != Null {
        merged := merged[key := value];
      }
      pending := pending - {key};
    }
    assert forall k :: k in merged <==> k in Merge(state, slots);
  }

  class Bot {
    const redis: RedisClient
    const sheets: SheetsClient
    const bookingService: BookingService

    constructor (redis: RedisClient, sheets: SheetsClient)
      requires redis.Valid()
      ensures this.redis == redis && this.sheets == sheets && Valid()
    {
      this.redis := redis;
      this.sheets := sheets;
      this.bookingService := new BookingService(sheets);
    }

    /** The booking service works on the same sheet the handlers read, and the store is well typed. */
    ghost predicate Valid()
      reads redis
    {
      bookingService.sheets == sheets && redis.Valid()
    }

    method HandleBooking(userId: int, ai: AIIntent, now: Stamp) returns (reply: Reply)
      requires Valid()
      requires BookingInputsOk(sheets.Snap(), Merge(StartState(redis.StateOf(userId)), ai.slots))
      modifies redis, sheets`bookingRows, sheets`log
      ensures Valid()
      ensures var t := BookingTurn(old(sheets.Snap()), old(redis.StateOf(userId)), ai.slots, now);
        reply == t.reply && redis.kv == Apply(old(redis.kv), userId, t.effect) &&
        sheets.log == old(sheets.log) + t.calls && sheets.bookingRows == old(sheets.bookingRows) + t.appended
    {
      var stored := redis.GetState(userId);
      var state := if stored.Some? && stored.value != map[] then stored.value else map[];
      state := MergeSlots(state, ai.slots);
      reply := FinishBooking(userId, state, now);
    }

    /** `handle_booking` from the missing-field check on, with the merged `state`. */
    method FinishBooking(userId: int, state: Object, now: Stamp) returns (reply: Reply)
      requires Valid()
      requires BookingInputsOk(sheets.Snap(), state)
      modifies redis, sheets`bookingRows, sheets`log
      ensures Valid()
      ensures var t := BookingTurnOn(old(sheets.Snap()), state, now);
        reply == t.reply && redis.kv == Apply(old(redis.kv), userId, t.effect) &&
        sheets.log == old(sheets.log) + t.calls && sheets.bookingRows == old(sheets.bookingRows) + t.appended
    {
      ghost var snap := sheets.Snap();
      var missing := Missing(state);
      if missing != [] {
        assert BookingTurnOn(snap, state, now) == Turn(AskFor(missing[0]), SaveState(state), [], []);
        redis.SetState(userId, state);
        return AskFor(missing[0]);
      }
      var duplicate := sheets.CheckDuplicateBooking(state["phone"], state["date"]);
      if duplicate {
        assert BookingTurnOn(snap, state, now) ==
          Turn(AlreadyBooked(state["date"]), ClearState, [DuplicateCheck(state["phone"], state["date"])], []);
        reply := AlreadyBooked(state["date"]);
        redis.DeleteState(userId);
        return;
      }
      assert sheets.Snap() == snap;
      reply := BookIfFree(userId, state, now);
    }

    /** `handle_booking` after a duplicate check that found nothing. */
    method BookIfFree(userId: int, state: Object, now: Stamp) returns (reply: Reply)
      requires Valid()
      requires BookingInputsOk(sheets.Snap(), state)
      requires Missing(state) == [] && (state["phone"], state["date"]) !in sheets.duplicatePairs
      modifies redis, sheets`bookingRows
      ensures Valid()
      ensures var t := BookingTurnOn(old(sheets.Snap()), state, now);
        reply == t.reply && redis.kv == Apply(old(redis.kv), userId, t.effect) &&
        sheets.bookingRows == old(sheets.bookingRows) + t.appended
    {
      ghost var snap := sheets.Snap();
      var availability := bookingService.CheckAvailability(state["date"].s, state["time"].s, AsInt(state["guests"]));
      assert availability == Availability(snap, state["date"].s, state["time"].s, AsInt(state["guests"]));
      if availability.Err? {
        return Crashed(availability.error);
      }
      if !availability.value.available {
        reply := NoFreeTable(state["date"], state["time"]);
        redis.DeleteState(userId);
        return;
      }
      var request := RequestOf(state);
      var bookingId := bookingService.CreateBooking(request, availability.value.tableId.value, now);
      reply := if bookingId != "" then Booked(bookingId, request) else BookingFailed;
      redis.DeleteState(userId);
    }

    method HandleCancel(ai: AIIntent) returns (reply: Reply)
      modifies sheets`log
      ensures var t := CancelTurn(old(sheets.Snap()), ai.slots);
        reply == t.reply && sheets.log == old(sheets.log) + t.calls
    {
      var slots := ai.slots;
      if !Truthy(Get(slots, "phone")) {
        return AskPhone;
      }
      var bookings := sheets.FindBookingByPhone(slots["phone"]);
      if bookings == [] {
        return NoActiveBookings;
      }
      if |bookings| == 1 {
        var booking := bookings[0];
        var cancelled := sheets.CancelBooking(booking.bookingId);
        reply := if cancelled then Cancelled(booking) else CancelFailed;
        return;
      }
      reply := CancelChoice(bookings);
    }

    method HandleModify(ai: AIIntent) returns (reply: Reply)
      modifies sheets`log
      ensures var t := ModifyTurn(old(sheets.Snap()), ai.slots);
        reply == t.reply && sheets.log == old(sheets.log) + t.calls
    {
      var slots := ai.slots;
      if !Truthy(Get(slots, "phone")) {
        return AskPhone;
      }
      var bookings := sheets.FindBookingByPhone(slots["phone"]);
      if bookings == [] {
        return NoActiveBookings;
      }
      if |bookings| == 1 && (Truthy(Get(slots, "guests")) || Truthy(Get(slots, "time"))) {
        var booking := bookings[0];
        var updates: Object := map[];
        if Truthy(Get(slots, "guests")) {
          updates := updates["guests" := slots["guests"]];
        }
        if Truthy(Get(slots, "time")) {
          updates := updates["time" := slots["time"]];
        }
        assert updates == Updates(slots);
        var updated := sheets.UpdateBooking(booking.bookingId, updates);
        reply := if updated then Modified(booking, updates) else ModifyFailed;
        return;
      }
      reply := ModifyChoice(bookings);
    }

    method HandleMenu(ai: AIIntent) returns (reply: Reply)
      modifies sheets`log
      ensures var t := MenuTurn(old(sheets.Snap()), ai.slots);
        reply == t.reply && sheets.log == old(sheets.log) + t.calls
    {
      var category := Get(ai.slots, "category");
      var items := sheets.GetMenu(category);
      if items == [] {
        return MenuUnavailable;
      }
      reply := MenuList(items);
    }

    /** One pass of the loop of `handle_order`: the item's line, if it matches, written as one `create_order`. */
    method PlaceOne(bookingId: string, item: Value, index: map<string, MenuItem>) returns (line: Option<OrderLine>)
      requires item.Dict? && ItemName(item).Str? && (Matches(item, index) ==> ItemQuantity(item).Int?)
      modifies sheets`log
      ensures line == LineOf(index, item)
      ensures sheets.log == old(sheets.log) + OrderCalls(bookingId, Emit(line))
    {
      var itemName := ItemName(item);
      var quantity := ItemQuantity(item);
      var key := Lower(itemName.s);
      line := None;
      if key in index {
        var menuItem := index[key];
        var amount := menuItem.price * quantity.i;
        sheets.CreateOrder(bookingId, menuItem.name, quantity.i, amount);
        line := Some(OrderLine(menuItem.name, quantity.i, amount));
      }
    }

    /** The loop of `handle_order`: one `create_order` per matched item, accumulating the lines and the total. */
    method PlaceOrders(bookingId: string, items: seq<Value>, index: map<string, MenuItem>)
      returns (lines: seq<OrderLine>, total: int)
      requires ItemsOk(items, index)
      modifies sheets`log
      ensures lines == OrderLines(items, index) && total == OrderTotal(lines)
      ensures sheets.log == old(sheets.log) + OrderCalls(bookingId, lines)
    {
      total := 0;
      lines := [];
      for i := 0 to |items|
        invariant lines == OrderLines(items[..i], index)
        invariant total == OrderTotal(lines)
        invariant sheets.log == old(sheets.log) + OrderCalls(bookingId, lines)
      {
        var line := PlaceOne(bookingId, items[i], index);
        OrderStep(bookingId, items, i, index, line);
        if line.Some? {
          total := total + line.value.amount;
          lines := lines + [line.value];
        }
      }
      assert items[..|items|] == items;
    }

    method HandleOrder(ai: AIIntent) returns (reply: Reply)
      requires OrderInputsOk(sheets.Snap(), ai.slots)
      modifies sheets`log
      ensures var t := OrderTurn(old(sheets.Snap()), ai.slots);
        reply == t.reply && sheets.log == old(sheets.log) + t.calls
    {
      ghost var snap := sheets.Snap();
      var slots := ai.slots;
      if !Truthy(Get(slots, "phone")) {
        return AskPhone;
      }
      var bookings := sheets.FindBookingByPhone(slots["phone"]);
      if bookings == [] {
        return BookFirst;
      }
      var booking := bookings[0];
      var items := ItemsOf(slots);
      if !Truthy(items) {
        return AskItems;
      }
      reply := OrderFromMenu(booking.bookingId, items.elems);
    }

    /** The end of `handle_order`: read the whole menu, index it by lowercased name, and place the orders. */
    method OrderFromMenu(bookingId: string, items: seq<Value>) returns (reply: Reply)
      requires ItemsOk(items, MenuIndex(MenuFor(sheets.Snap(), Null)))
      modifies sheets`log
      ensures var lines := OrderLines(items, MenuIndex(MenuFor(old(sheets.Snap()), Null)));
        reply == (if lines != [] then OrderPlaced(bookingId, lines, OrderTotal(lines)) else ItemsNotFound) &&
        sheets.log == old(sheets.log) + [MenuRead(Null)] + OrderCalls(bookingId, lines)
    {
      var menu := sheets.GetMenu(Null);
      var index := MenuIndex(menu);
      var lines, total := PlaceOrders(bookingId, items, index);
      if lines != [] {
        reply := OrderPlaced(bookingId, lines, total);
      } else {
        reply := ItemsNotFound;
      }
    }

    method HandleInfo(ai: AIIntent) returns (reply: Reply)
      ensures reply == InfoTurn(sheets.Snap(), ai).reply
    {
      var venue := sheets.GetVenueInfo();
      reply := VenueCard(venue, ai.responseText);
    }

    method HandleEvents(now: Stamp) returns (reply: Reply)
      ensures reply == EventsTurn(sheets.Snap(), now).reply
    {
      var events := sheets.GetEvents(EventLimit, now);
      if events == [] {
        return NoEvents;
      }
      reply := EventCards(events);
    }

    method HandlePrices() returns (reply: Reply)
      ensures reply == PricesTurn(sheets.Snap()).reply
    {
      var prices := sheets.GetPrices(None);
      if prices == [] {
        return AskAdmin;
      }
      reply := PriceList(PriceGroups(prices));
    }

    /** `/reset`. */
    method CmdReset(userId: int) returns (reply: Reply)
      requires Valid()
      modifies redis
      ensures Valid()
      ensures reply == ResetTurn().reply && redis.kv == Apply(old(redis.kv), userId, ResetTurn().effect)
    {
      redis.DeleteState(userId);
      reply := ResetDone;
    }

    /** `/menu`. */
    method CmdMenu() returns (reply: Reply)
      modifies sheets`log
      ensures var t := MenuCommandTurn(old(sheets.Snap()));
        reply == t.reply && sheets.log == old(sheets.log) + t.calls
    {
      reply := HandleMenu(AIIntent("menu", map[], ""));
    }

    /** The `if`/`elif` chain of `handle_message`. */
    method Dispatch(userId: int, ai: AIIntent, now: Stamp) returns (reply: Reply)
      requires Valid()
      requires MessageInputsOk(sheets.Snap(), redis.StateOf(userId), ai)
      modifies redis, sheets`bookingRows, sheets`log
      ensures Valid()
      ensures var t := MessageTurn(old(sheets.Snap()), old(redis.StateOf(userId)), ai, now);
        reply == t.reply && redis.kv == Apply(old(redis.kv), userId, t.effect) &&
        sheets.log == old(sheets.log) + t.calls && sheets.bookingRows == old(sheets.bookingRows) + t.appended
    {
      ghost var snap := sheets.Snap();
      ghost var stored := redis.StateOf(userId);
      var handler := Route(ai.intent);
      if handler == BookingHandler {
        assert MessageTurn(snap, stored, ai, now) == BookingTurn(snap, stored, ai.slots, now);
        reply := HandleBooking(userId, ai, now);
      } else if handler in {CancelHandler, ModifyHandler, MenuHandler, OrderHandler} {
        reply := DispatchLookup(ai);
        assert MessageTurn(snap, stored, ai, now) == LookupTurn(snap, ai);
      } else {
        assert MessageTurn(snap, stored, ai, now) == QueryTurn(snap, ai, now);
        reply := DispatchQuery(ai, now);
      }
    }

    /** The handlers that look bookings or the menu up: cancel, modify, menu and order. */
    method DispatchLookup(ai: AIIntent) returns (reply: Reply)
      requires Route(ai.intent) in {CancelHandler, ModifyHandler, MenuHandler, OrderHandler}
      requires Route(ai.intent) == OrderHandler ==> OrderInputsOk(sheets.Snap(), ai.slots)
      modifies sheets`log
      ensures var t := LookupTurn(old(sheets.Snap()), ai);
        reply == t.reply && sheets.log == old(sheets.log) + t.calls
    {
      match Route(ai.intent)
      case CancelHandler => reply := HandleCancel(ai);
      case ModifyHandler => reply := HandleModify(ai);
      case MenuHandler => reply := HandleMenu(ai);
      case OrderHandler => reply := HandleOrder(ai);
    }

    /** The handlers that only read the sheet: info, events, prices, and the plain answer. */
    method DispatchQuery(ai: AIIntent, now: Stamp) returns (reply: Reply)
      requires Route(ai.intent) in {InfoHandler, EventsHandler, PricesHandler, ChatHandler}
      ensures reply == QueryTurn(sheets.Snap(), ai, now).reply
    {
      match Route(ai.intent)
      case InfoHandler => reply := HandleInfo(ai);
      case EventsHandler => reply := HandleEvents(now);
      case PricesHandler => reply := HandlePrices();
      case ChatHandler => reply := Chat(ai.responseText);
    }

    /**
     * `handle_message`: the classifier sees the context as it was, both
     * messages are added to the context, and then the intent's handler runs
     * on the state as it was stored.
     */
    method HandleMessage(userId: int, text: string, classify: (string, seq<Value>) -> AIIntent, now: Stamp)
      returns (reply: Reply)
      requires Valid()
      requires MessageInputsOk(sheets.Snap(), redis.StateOf(userId), classify(text, redis.ContextOf(userId)))
      modifies redis, sheets`bookingRows, sheets`log
      ensures Valid()
      ensures var ai := classify(text, old(redis.ContextOf(userId)));
        var t := MessageTurn(old(sheets.Snap()), old(redis.StateOf(userId)), ai, now);
        reply == t.reply &&
        redis.kv == Apply(Remembered(old(redis.kv), userId, text, ai), userId, t.effect) &&
        sheets.log == old(sheets.log) + t.calls && sheets.bookingRows == old(sheets.bookingRows) + t.appended
    {
      var context := redis.GetContext(userId);
      var ai := classify(text, context);
      RememberedSpec(redis.kv, userId, text, ai);
      redis.AddToContext(userId, UserMessage(text));
      redis.AddToContext(userId, AssistantMessage(ai.responseText));
      reply := Dispatch(userId, ai, now);
    }
  }
}
