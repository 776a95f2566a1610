/**
 * The decisions of app/bot/handlers.py, as values. Each handler becomes a
 * function from what it reads (the sheet, the stored state, the classifier's
 * intent and slots) to a `Turn`: the reply, what happens to the stored
 * state, the sheet operations called in order, and the rows appended.
 */
module Dialogue {
  import opened Wrappers
  import opened Text
  import opened Json
  import opened Clock
  import opened Rows
  import opened Schemas
  import opened Sheets
  import opened BookingEngine
  import opened Redis

  // ================================================================ intent dispatch

  datatype Handler =
    | InfoHandler | EventsHandler | PricesHandler | BookingHandler
    | CancelHandler | ModifyHandler | MenuHandler | OrderHandler
    | ChatHandler

  /** The intent name each dedicated handler answers to. */
  function IntentOf(h: Handler): string {
    match h
    case InfoHandler => "info"
    case EventsHandler => "events"
    case PricesHandler => "prices"
    case BookingHandler => "book"
    case CancelHandler => "cancel"
    case ModifyHandler => "modify"
    case MenuHandler => "menu"
    case OrderHandler => "order"
    case ChatHandler => ""
  }

  const KnownIntents: set<string> := {"info", "events", "prices", "book", "cancel", "modify", "menu", "order"}

  /**
   * The `if`/`elif` chain of `handle_message`: a known intent selects the
   * handler named by it; anything else is answered with the classifier's own text.
   */
  function Route(intent: string): (h: Handler)
    ensures h != ChatHandler ==> IntentOf(h) == intent
    ensures h == ChatHandler <==> intent !in KnownIntents
  {
    if intent == "info" then InfoHandler
    else if intent == "events" then EventsHandler
    else if intent == "prices" then PricesHandler
    else if intent == "book" then BookingHandler
    else if intent == "cancel" then CancelHandler
    else if intent == "modify" then ModifyHandler
    else if intent == "menu" then MenuHandler
    else if intent == "order" then OrderHandler
    else ChatHandler
  }

  /** Every dedicated handler is reached by its own intent name. */
  lemma RouteReachesEveryHandler(h: Handler)
    requires h != ChatHandler
    ensures Route(IntentOf(h)) == h
  {
  }

  // ================================================================ slot filling

  datatype Field = Date | Time | Guests | Name | Phone

  function Key(f: Field): string {
    match f
    case Date => "date"
    case Time => "time"
    case Guests => "guests"
    case Name => "name"
    case Phone => "phone"
  }

  /** Position in the order the fields are asked for. */
  function Rank(f: Field): nat {
    match f
    case Date => 0
    case Time => 1
    case Guests => 2
    case Name => 3
    case Phone => 4
  }

  /** The field has a value in the state: present and not `None`. */
  predicate Filled(state: Object, f: Field) {
    Key(f) in state && state[Key(f)] != Null
  }

  function Need(state: Object, f: Field): seq<Field> {
    if Filled(state, f) then [] else [f]
  }

  /** `missing`: the required fields without a value, in the order date, time, guests, name, phone. */
  function Missing(state: Object): (r: seq<Field>)
    ensures forall f :: f in r <==> !Filled(state, f)
  {
    Need(state, Date) + Need(state, Time) + Need(state, Guests) + Need(state, Name) + Need(state, Phone)
  }

  predicate RankIncreasing(fs: seq<Field>) {
    forall i, j :: 0 <= i < j < |fs| ==> Rank(fs[i]) < Rank(fs[j])
  }

  lemma NeedExtends(prefix: seq<Field>, state: Object, f: Field)
    requires RankIncreasing(prefix) && forall i :: 0 <= i < |prefix| ==> Rank(prefix[i]) < Rank(f)
    ensures RankIncreasing(prefix + Need(state, f))
    ensures forall i :: 0 <= i < |prefix + Need(state, f)| ==> Rank((prefix + Need(state, f))[i]) <= Rank(f)
  {
  }

  /** The missing fields come in the fixed order. */
  lemma MissingOrdered(state: Object)
    ensures RankIncreasing(Missing(state))
  {
    var m1 := Need(state, Date);
    assert RankIncreasing(m1) && forall i :: 0 <= i < |m1| ==> Rank(m1[i]) < Rank(Time);
    NeedExtends(m1, state, Time);
    var m2 := m1 + Need(state, Time);
    NeedExtends(m2, state, Guests);
    var m3 := m2 + Need(state, Guests);
    NeedExtends(m3, state, Name);
    var m4 := m3 + Need(state, Name);
    NeedExtends(m4, state, Phone);
    assert m4 + Need(state, Phone) == Missing(state);
  }

  /** So the field asked for is the earliest unfilled one: every field before it has a value. */
  lemma FirstMissing(state: Object)
    requires Missing(state) != []
    ensures !Filled(state, Missing(state)[0])
    ensures forall f :: Rank(f) < Rank(Missing(state)[0]) ==> Filled(state, f)
  {
    MissingOrdered(state);
  }

  /** The state after the merge loop: every slot whose value is not `None` is written over the state. */
  function Merge(state: Object, slots: Object): Object {
    map k | k in state.Keys + slots.Keys && (k in state || slots[k] != Null) ::
      if k in slots && slots[k] != Null then slots[k] else state[k]
  }

  /**
   * What the merge promises: non-`None` slots overwrite, `None` slots erase
   * nothing, keys the slots do not mention are unchanged, and no other key appears.
   */
  lemma MergeSpec(state: Object, slots: Object, k: string)
    ensures k in slots && slots[k] != Null ==> k in Merge(state, slots) && Merge(state, slots)[k] == slots[k]
    ensures k in state && (k !in slots || slots[k] == Null) ==> k in Merge(state, slots) && Merge(state, slots)[k] == state[k]
    ensures k !in state && (k !in slots || slots[k] == Null) ==> k !in Merge(state, slots)
  {
  }

  /** Replaying the same slots changes nothing more. */
  lemma MergeIdempotent(state: Object, slots: Object)
    ensures Merge(Merge(state, slots), slots) == Merge(state, slots)
  {
  }

  /** A field once filled stays filled, so the missing list only shrinks as slots arrive. */
  lemma MergeOnlyFills(state: Object, slots: Object)
    ensures forall f :: f in Missing(Merge(state, slots)) ==> f in Missing(state)
  {
    forall f | f in Missing(Merge(state, slots)) ensures f in Missing(state) {
      MergeSpec(state, slots, Key(f));
    }
  }

  /** The merge never stores `None`: a state without `None` values stays so. */
  lemma MergeStoresNoNone(state: Object, slots: Object)
    requires forall k :: k in state ==> state[k] != Null
    ensures forall k :: k in Merge(state, slots) ==> Merge(state, slots)[k] != Null
  {
  }

  /** `redis_client.get_state(user_id) or {}`. */
  function StartState(stored: Option<Object>): Object {
    if stored.Some? then stored.value else map[]
  }

  // ================================================================ turns

  /** One line of a placed order: the menu item's own name, the quantity and its cost. */
  datatype OrderLine = OrderLine(name: string, quantity: int, amount: int)

  /** The outcome of a message, in place of the reply text. */
  datatype Reply =
    | ResetDone
    | VenueCard(venue: VenueInfo, note: string)
    | NoEvents
    | EventCards(events: seq<Event>)
    | AskAdmin
    | PriceList(groups: seq<(string, seq<Price>)>)
    | AskFor(field: Field)
    | AlreadyBooked(date: Value)
    | NoFreeTable(date: Value, time: Value)
    | Booked(bookingId: string, request: BookingRequest)
    | BookingFailed
    | Crashed(badTime: string)
    | AskPhone
    | NoActiveBookings
    | Cancelled(booking: Booking)
    | CancelFailed
    | CancelChoice(bookings: seq<Booking>)
    | Modified(booking: Booking, updates: Object)
    | ModifyFailed
    | ModifyChoice(bookings: seq<Booking>)
    | BookFirst
    | AskItems
    | OrderPlaced(bookingId: string, lines: seq<OrderLine>, total: int)
    | ItemsNotFound
    | MenuUnavailable
    | MenuList(items: seq<MenuItem>)
    | Chat(text: string)

  /** What a turn does to the user's stored state. */
  datatype Effect = KeepState | SaveState(state: Object) | ClearState

  datatype Turn = Turn(reply: Reply, effect: Effect, calls: seq<Call>, appended: seq<Row>)

  /** The key space after the turn's effect on `userId`'s state. */
  function Apply(kv: map<string, Value>, userId: int, effect: Effect): map<string, Value> {
    match effect
    case KeepState => kv
    case SaveState(state) => Store(kv, userId, state)
    case ClearState => Drop(kv, userId)
  }

  // ================================================================ booking

  /**
   * The calls `handle_booking` makes with the merged state that must not
   * raise: on the path past the duplicate check, `check_availability` needs
   * string date and time and an `int()`-able guest count (and rows `int()`
   * accepts), and building the `BookingRequest` needs a string name and phone.
   */
  predicate BookingInputsOk(s: Snapshot, state: Object) {
    Missing(state) == [] && (state["phone"], state["date"]) !in s.duplicatePairs ==>
      state["date"].Str? && state["time"].Str? && IsIntLike(state["guests"]) &&
      TableRowsOk(s.tableRows) && BookingRowsOk(s.bookingRows, state["date"].s) &&
      (var a := Availability(s, state["date"].s, state["time"].s, AsInt(state["guests"]));
       a.Ok? && a.value.available ==> state["name"].Str? && state["phone"].Str?)
  }

  function RequestOf(state: Object): BookingRequest
    requires Missing(state) == []
    requires state["date"].Str? && state["time"].Str? && IsIntLike(state["guests"])
    requires state["name"].Str? && state["phone"].Str?
  {
    BookingRequest(state["date"].s, state["time"].s, AsInt(state["guests"]), state["name"].s, state["phone"].s)
  }

  /** `handle_booking` after the merge, on the merged state. */
  function BookingTurnOn(s: Snapshot, state: Object, now: Stamp): Turn
    requires BookingInputsOk(s, state)
  {
    var missing := Missing(state);
    if missing != [] then Turn(AskFor(missing[0]), SaveState(state), [], [])
    else
      var phone := state["phone"];
      var date := state["date"];
      var checked := [DuplicateCheck(phone, date)];
      if (phone, date) in s.duplicatePairs then Turn(AlreadyBooked(date), ClearState, checked, [])
      else
        match Availability(s, date.s, state["time"].s, AsInt(state["guests"]))
        case Err(badTime) => Turn(Crashed(badTime), KeepState, checked, [])
        case Ok(slot) =>
          if !slot.available then Turn(NoFreeTable(date, state["time"]), ClearState, checked, [])
          else
            var request := RequestOf(state);
            var bookingId := BookingId(now);
            Turn(if bookingId != "" then Booked(bookingId, request) else BookingFailed, ClearState, checked,
                 [BookingRow(RequestData(request, slot.tableId.value), now)])
  }

  function BookingTurn(s: Snapshot, stored: Option<Object>, slots: Object, now: Stamp): Turn
    requires BookingInputsOk(s, Merge(StartState(stored), slots))
  {
    BookingTurnOn(s, Merge(StartState(stored), slots), now)
  }

  /**
   * While a field is missing, the reply asks for the first one in the fixed
   * order, the merged state is saved, and no sheet operation is called.
   */
  lemma BookingAsksFirstMissing(s: Snapshot, state: Object, now: Stamp)
    requires BookingInputsOk(s, state)
    requires Missing(state) != []
    ensures var t := BookingTurnOn(s, state, now);
      t.reply.AskFor? && !Filled(state, t.reply.field) &&
      (forall f :: Rank(f) < Rank(t.reply.field) ==> Filled(state, f)) &&
      t.effect == SaveState(state) && t.calls == [] && t.appended == []
  {
    FirstMissing(state);
  }

  /**
   * Once every field is filled, the duplicate check is the first call; a
   * duplicate ends the turn there, clearing the state and writing nothing.
   */
  lemma BookingDuplicateStops(s: Snapshot, state: Object, now: Stamp)
    requires BookingInputsOk(s, state)
    requires Missing(state) == []
    ensures var t := BookingTurnOn(s, state, now);
      t.calls == [DuplicateCheck(state["phone"], state["date"])] &&
      ((state["phone"], state["date"]) in s.duplicatePairs ==>
         t.reply == AlreadyBooked(state["date"]) && t.effect == ClearState && t.appended == [])
  {
  }

  /**
   * A row is written exactly when the reply is a confirmation; it is the
   * request booked on the table availability offered, which was free and big
   * enough for the party. Every ending other than an exception raised by
   * `strptime` clears the state.
   */
  lemma BookingWritesOnlyWhenBooked(s: Snapshot, state: Object, now: Stamp)
    requires BookingInputsOk(s, state)
    ensures var t := BookingTurnOn(s, state, now);
      (t.appended != [] <==> t.reply.Booked?) && t.reply != BookingFailed &&
      (t.effect == ClearState || t.reply.Crashed? || t.reply.AskFor?)
    ensures var t := BookingTurnOn(s, state, now);
      t.reply.Booked? ==>
        var a := Availability(s, state["date"].s, state["time"].s, AsInt(state["guests"]));
        a.Ok? && a.value.available && a.value.tableId.Some? &&
        t.reply.request == RequestOf(state) && t.reply.bookingId == BookingId(now) &&
        t.appended == [BookingRow(RequestData(t.reply.request, a.value.tableId.value), now)] &&
        exists k :: 0 <= k < |TablesOf(s.tableRows)| && TablesOf(s.tableRows)[k].tableId == a.value.tableId.value &&
          TablesOf(s.tableRows)[k].capacity >= t.reply.request.guests &&
          forall i :: 0 <= i < |BookingsOf(s.bookingRows, t.reply.request.date)| ==>
            !Blocks(BookingsOf(s.bookingRows, t.reply.request.date)[i], a.value.tableId.value, t.reply.request.time)
  {
    var t := BookingTurnOn(s, state, now);
    if t.reply.Booked? {
      var tables := TablesOf(s.tableRows);
      var bookings := BookingsOf(s.bookingRows, state["date"].s);
      FirstFitAvailable(tables, bookings, state["date"].s, state["time"].s, AsInt(state["guests"]));
      var a := Availability(s, state["date"].s, state["time"].s, AsInt(state["guests"]));
      var k :| 0 <= k < |tables| && a.value.tableId == Some(tables[k].tableId) &&
        tables[k].capacity >= AsInt(state["guests"]) && Scan(tables[k].tableId, bookings, state["time"].s) == Ok(false) &&
        forall j :: 0 <= j < k ==> PassedOver(tables[j], bookings, state["time"].s, AsInt(state["guests"]));
      ScanMeaning(tables[k].tableId, bookings, state["time"].s);
    }
  }

  // ================================================================ cancel and modify

  /** `slots.get('phone')` when it is truthy: the bookings found for it, after one lookup. */
  function Lookup(s: Snapshot, slots: Object): (seq<Booking>, seq<Call>) {
    var phone := Get(slots, "phone");
    if Truthy(phone) then (Found(s, phone), [PhoneLookup(phone)]) else ([], [])
  }

  function CancelTurn(s: Snapshot, slots: Object): Turn {
    var phone := Get(slots, "phone");
    if !Truthy(phone) then Turn(AskPhone, KeepState, [], [])
    else
      var bookings := Found(s, phone);
      var looked := [PhoneLookup(phone)];
      if bookings == [] then Turn(NoActiveBookings, KeepState, looked, [])
      else if |bookings| == 1 then
        var booking := bookings[0];
        Turn(if booking.bookingId in s.cancellable then Cancelled(booking) else CancelFailed, KeepState,
             looked + [CancelCall(booking.bookingId)], [])
      else Turn(CancelChoice(bookings), KeepState, looked, [])
  }

  /**
   * Cancel: something is cancelled only when a phone is given and exactly
   * one booking is found for it, and then it is that booking; zero matches
   * and several matches cancel nothing.
   */
  lemma CancelOnlyTheSingleMatch(s: Snapshot, slots: Object)
    ensures var t := CancelTurn(s, slots);
      var phone := Get(slots, "phone");
      ((exists i :: 0 <= i < |t.calls| && t.calls[i].CancelCall?) <==> Truthy(phone) && |Found(s, phone)| == 1) &&
      (forall i :: 0 <= i < |t.calls| && t.calls[i].CancelCall? ==> t.calls[i].bookingId == Found(s, phone)[0].bookingId) &&
      (Truthy(phone) && |Found(s, phone)| > 1 ==> t.reply == CancelChoice(Found(s, phone))) &&
      t.effect == KeepState && t.appended == []
  {
    var t := CancelTurn(s, slots);
    var phone := Get(slots, "phone");
    if Truthy(phone) && |Found(s, phone)| == 1 {
      assert t.calls[1].CancelCall?;
    }
  }

  /** The `updates` dict: exactly the supplied (truthy) values among guests and time. */
  function Updates(slots: Object): (u: Object)
    ensures forall k :: k in u <==> (k == "guests" || k == "time") && Truthy(Get(slots, k))
    ensures forall k :: k in u ==> k in slots && u[k] == slots[k]
  {
    var withGuests: Object := if Truthy(Get(slots, "guests")) then map["guests" := slots["guests"]] else map[];
    if Truthy(Get(slots, "time")) then withGuests["time" := slots["time"]] else withGuests
  }

  function ModifyTurn(s: Snapshot, slots: Object): Turn {
    var phone := Get(slots, "phone");
    if !Truthy(phone) then Turn(AskPhone, KeepState, [], [])
    else
      var bookings := Found(s, phone);
      var looked := [PhoneLookup(phone)];
      if bookings == [] then Turn(NoActiveBookings, KeepState, looked, [])
      else if |bookings| == 1 && (Truthy(Get(slots, "guests")) || Truthy(Get(slots, "time"))) then
        var booking := bookings[0];
        var updates := Updates(slots);
        Turn(if booking.bookingId in s.updatable then Modified(booking, updates) else ModifyFailed, KeepState,
             looked + [UpdateCall(booking.bookingId, updates)], [])
      else Turn(ModifyChoice(bookings), KeepState, looked, [])
  }

  /**
   * Modify: an update is sent only when exactly one booking matches and a
   * guest count or a time is supplied, to that booking, with exactly the
   * supplied keys; a single match with nothing to change is answered with
   * the list, like several matches.
   */
  lemma ModifyOnlyTheSingleMatch(s: Snapshot, slots: Object)
    ensures var t := ModifyTurn(s, slots);
      var phone := Get(slots, "phone");
      var changes := Truthy(Get(slots, "guests")) || Truthy(Get(slots, "time"));
      ((exists i :: 0 <= i < |t.calls| && t.calls[i].UpdateCall?) <==> Truthy(phone) && |Found(s, phone)| == 1 && changes) &&
      (forall i :: 0 <= i < |t.calls| && t.calls[i].UpdateCall? ==>
         t.calls[i].bookingId == Found(s, phone)[0].bookingId && t.calls[i].updates.Keys <= {"guests", "time"} &&
         forall k :: k in t.calls[i].updates <==> (k == "guests" || k == "time") && Truthy(Get(slots, k))) &&
      (Truthy(phone) && |Found(s, phone)| == 1 && !changes ==> t.reply == ModifyChoice(Found(s, phone))) &&
      t.effect == KeepState && t.appended == []
  {
    var t := ModifyTurn(s, slots);
    var phone := Get(slots, "phone");
    if Truthy(phone) && |Found(s, phone)| == 1 && (Truthy(Get(slots, "guests")) || Truthy(Get(slots, "time"))) {
      assert t.calls[1].UpdateCall?;
    }
  }

  // ================================================================ order

  /** `{item.name.lower(): item for item in menu}`. */
  function MenuIndex(menu: seq<MenuItem>): map<string, MenuItem> {
    FoldLast(menu, (item: MenuItem) => Some((Lower(item.name), item)))
  }

  /**
   * A lowercased name is in the index exactly when some menu item has it,
   * and it maps to the last such item.
   */
  lemma MenuIndexSpec(menu: seq<MenuItem>, key: string)
    ensures key in MenuIndex(menu) <==> exists i :: 0 <= i < |menu| && Lower(menu[i].name) == key
    ensures key in MenuIndex(menu) ==>
      exists j :: 0 <= j < |menu| && MenuIndex(menu)[key] == menu[j] && Lower(menu[j].name) == key &&
        forall i :: j < i < |menu| ==> Lower(menu[i].name) != key
  {
    var f := (item: MenuItem) => Some((Lower(item.name), item));
    FoldLastSpec(menu, f, key);
    assert forall i :: 0 <= i < |menu| ==> (Binds(f, menu[i], key) <==> Lower(menu[i].name) == key);
  }

  /** The requested name is some menu item's name written in any mix of letter case. */
  predicate NamedOnMenu(menu: seq<MenuItem>, name: string) {
    exists i :: 0 <= i < |menu| && |menu[i].name| == |name| &&
      forall k :: 0 <= k < |name| ==> SameLetter(menu[i].name[k], name[k])
  }

  /** An item with a string name matches the menu index exactly when the menu has that name up to letter case. */
  lemma MatchesUpToCase(menu: seq<MenuItem>, item: Value)
    requires item.Dict? && ItemName(item).Str?
    ensures Matches(item, MenuIndex(menu)) <==> NamedOnMenu(menu, ItemName(item).s)
  {
    var name := ItemName(item).s;
    MenuIndexSpec(menu, Lower(name));
    forall i | 0 <= i < |menu| ensures Lower(menu[i].name) == Lower(name) <==>
      |menu[i].name| == |name| && forall k :: 0 <= k < |name| ==> SameLetter(menu[i].name[k], name[k])
    {
      LowerSame(menu[i].name, name);
    }
  }

  /** `item.get('name', '')`. */
  function ItemName(item: Value): Value
    requires item.Dict?
  {
    GetOr(item.entries, "name", Str(""))
  }

  /** `item.get('quantity', 1)`. */
  function ItemQuantity(item: Value): Value
    requires item.Dict?
  {
    GetOr(item.entries, "quantity", Int(1))
  }

  /** The requested item is on the menu under its lowercased name. */
  predicate Matches(item: Value, index: map<string, MenuItem>) {
    item.Dict? && ItemName(item).Str? && Lower(ItemName(item).s) in index
  }

  /** The loop body does not raise: each item is a dict with a string name, and a matched one has an integer quantity. */
  predicate ItemsOk(items: seq<Value>, index: map<string, MenuItem>) {
    forall i :: 0 <= i < |items| ==>
      items[i].Dict? && ItemName(items[i]).Str? && (Matches(items[i], index) ==> ItemQuantity(items[i]).Int?)
  }

  /** The order line an item yields, if it matches. */
  function LineOf(index: map<string, MenuItem>, item: Value): Option<OrderLine> {
    if Matches(item, index) && ItemQuantity(item).Int? then
      var menuItem := index[Lower(ItemName(item).s)];
      var quantity := ItemQuantity(item).i;
      Some(OrderLine(menuItem.name, quantity, menuItem.price * quantity))
    else None
  }

  function OrderLines(items: seq<Value>, index: map<string, MenuItem>): seq<OrderLine> {
    Collect(items, (item: Value) => LineOf(index, item))
  }

  /** The running `total`: the sum of the lines' amounts. */
  function OrderTotal(lines: seq<OrderLine>): int
    decreases |lines|
  {
    if lines == [] then 0 else OrderTotal(lines[..|lines| - 1]) + lines[|lines| - 1].amount
  }

  /** What one requested item costs: price times quantity when it matches, nothing otherwise. */
  function ItemCost(item: Value, index: map<string, MenuItem>): int
    requires item.Dict? && (Matches(item, index) ==> ItemQuantity(item).Int?)
  {
    if Matches(item, index) then index[Lower(ItemName(item).s)].price * ItemQuantity(item).i else 0
  }

  /** Price times quantity summed directly over the requested items. */
  function MatchedCost(items: seq<Value>, index: map<string, MenuItem>): int
    requires ItemsOk(items, index)
    decreases |items|
  {
    if items == [] then 0
    else MatchedCost(items[..|items| - 1], index) + ItemCost(items[|items| - 1], index)
  }

  /** Adding one line adds its amount to the total. */
  lemma OrderTotalStep(lines: seq<OrderLine>, line: OrderLine)
    ensures OrderTotal(lines + [line]) == OrderTotal(lines) + line.amount
  {
    assert (lines + [line])[..|lines|] == lines;
  }

  /** The total is the sum of price times quantity over the matched items. */
  lemma {:induction false} OrderTotalIsMatchedCost(items: seq<Value>, index: map<string, MenuItem>)
    requires ItemsOk(items, index)
    ensures OrderTotal(OrderLines(items, index)) == MatchedCost(items, index)
    decreases |items|
  {
    if items != [] {
      var init := items[..|items| - 1];
      var last := items[|items| - 1];
      assert ItemsOk(init, index) by {
        forall i | 0 <= i < |init| ensures init[i] == items[i] { }
      }
      OrderTotalIsMatchedCost(init, index);
      var o := LineOf(index, last);
      assert OrderLines(items, index) == OrderLines(init, index) + Emit(o);
      if o.Some? {
        OrderTotalStep(OrderLines(init, index), o.value);
      } else {
        assert OrderLines(init, index) + Emit(o) == OrderLines(init, index);
      }
    }
  }

  /**
   * An item is ordered exactly when its lowercased name is a key of the
   * index; its line carries the indexed item's name, the quantity asked
   * for (1 when none is given) and price times quantity.
   */
  lemma OrderLinesSpec(items: seq<Value>, index: map<string, MenuItem>, line: OrderLine)
    requires ItemsOk(items, index)
    ensures line in OrderLines(items, index) <==>
      exists i :: 0 <= i < |items| && Matches(items[i], index) &&
        var menuItem := index[Lower(ItemName(items[i]).s)];
        line == OrderLine(menuItem.name, ItemQuantity(items[i]).i, menuItem.price * ItemQuantity(items[i]).i)
    ensures |OrderLines(items, index)| <= |items|
  {
    CollectMembers(items, (item: Value) => LineOf(index, item), line);
    CollectLength(items, (item: Value) => LineOf(index, item));
  }

  /** An item given no quantity is ordered once. */
  lemma DefaultQuantityIsOne(item: Value)
    requires item.Dict? && "quantity" !in item.entries
    ensures ItemQuantity(item) == Int(1)
  {
  }

  /** The `create_order` calls the loop makes, one per line, all against `bookingId`. */
  function OrderCalls(bookingId: string, lines: seq<OrderLine>): (calls: seq<Call>)
    ensures |calls| == |lines|
    ensures forall i :: 0 <= i < |calls| ==>
      calls[i] == OrderCall(bookingId, lines[i].name, lines[i].quantity, lines[i].amount)
    decreases |lines|
  {
    if lines == [] then []
    else
      var last := lines[|lines| - 1];
      OrderCalls(bookingId, lines[..|lines| - 1]) + [OrderCall(bookingId, last.name, last.quantity, last.amount)]
  }

  /** One more line adds one more call, after the others. */
  lemma OrderCallsStep(bookingId: string, lines: seq<OrderLine>, line: OrderLine)
    ensures OrderCalls(bookingId, lines + [line]) ==
      OrderCalls(bookingId, lines) + [OrderCall(bookingId, line.name, line.quantity, line.amount)]
  {
    assert (lines + [line])[..|lines|] == lines;
  }

  /** What one more item adds to the lines, the total and the calls of the order loop. */
  lemma OrderStep(bookingId: string, items: seq<Value>, i: nat, index: map<string, MenuItem>, line: Option<OrderLine>)
    requires i < |items| && line == LineOf(index, items[i])
    ensures OrderLines(items[..i + 1], index) == OrderLines(items[..i], index) + Emit(line)
    ensures line.Some? ==>
      OrderTotal(OrderLines(items[..i], index) + [line.value]) == OrderTotal(OrderLines(items[..i], index)) + line.value.amount &&
      OrderCalls(bookingId, OrderLines(items[..i], index) + [line.value]) ==
        OrderCalls(bookingId, OrderLines(items[..i], index)) + OrderCalls(bookingId, Emit(line))
  {
    assert items[..i + 1][..i] == items[..i];
    if line.Some? {
      OrderTotalStep(OrderLines(items[..i], index), line.value);
      OrderCallsStep(bookingId, OrderLines(items[..i], index), line.value);
    }
  }

  /** `slots.get('items', [])`. */
  function ItemsOf(slots: Object): Value {
    GetOr(slots, "items", List([]))
  }

  /** `handle_order` does not raise: the items it iterates are a list the loop accepts against the full menu's index. */
  predicate OrderInputsOk(s: Snapshot, slots: Object) {
    var phone := Get(slots, "phone");
    Truthy(phone) && Found(s, phone) != [] && Truthy(ItemsOf(slots)) ==>
      ItemsOf(slots).List? && ItemsOk(ItemsOf(slots).elems, MenuIndex(MenuFor(s, Null)))
  }

  function OrderTurn(s: Snapshot, slots: Object): Turn
    requires OrderInputsOk(s, slots)
  {
    var phone := Get(slots, "phone");
    if !Truthy(phone) then Turn(AskPhone, KeepState, [], [])
    else
      var bookings := Found(s, phone);
      var looked := [PhoneLookup(phone)];
      if bookings == [] then Turn(BookFirst, KeepState, looked, [])
      else
        var booking := bookings[0];
        var items := ItemsOf(slots);
        if !Truthy(items) then Turn(AskItems, KeepState, looked, [])
        else
          var lines := OrderLines(items.elems, MenuIndex(MenuFor(s, Null)));
          Turn(if lines != [] then OrderPlaced(booking.bookingId, lines, OrderTotal(lines)) else ItemsNotFound,
               KeepState, looked + [MenuRead(Null)] + OrderCalls(booking.bookingId, lines), [])
  }

  /**
   * Every order placed attaches to the first booking found for the phone,
   * and the total reported is price times quantity summed over the matched items.
   */
  lemma OrderAttachesToFirstBooking(s: Snapshot, slots: Object)
    requires OrderInputsOk(s, slots)
    ensures var t := OrderTurn(s, slots);
      (forall i :: 0 <= i < |t.calls| && t.calls[i].OrderCall? ==> t.calls[i].bookingId == Found(s, Get(slots, "phone"))[0].bookingId) &&
      (t.reply.OrderPlaced? ==>
         t.reply.bookingId == Found(s, Get(slots, "phone"))[0].bookingId &&
         t.reply.total == MatchedCost(ItemsOf(slots).elems, MenuIndex(MenuFor(s, Null))))
  {
    var t := OrderTurn(s, slots);
    var phone := Get(slots, "phone");
    if Truthy(phone) && Found(s, phone) != [] && Truthy(ItemsOf(slots)) {
      var index := MenuIndex(MenuFor(s, Null));
      var lines := OrderLines(ItemsOf(slots).elems, index);
      OrderTotalIsMatchedCost(ItemsOf(slots).elems, index);
      var looked := [PhoneLookup(phone)] + [MenuRead(Null)];
      assert t.calls == looked + OrderCalls(Found(s, phone)[0].bookingId, lines);
      forall i | 0 <= i < |t.calls| && t.calls[i].OrderCall?
        ensures t.calls[i].bookingId == Found(s, phone)[0].bookingId
      {
        if i >= 2 { assert t.calls[i] == OrderCalls(Found(s, phone)[0].bookingId, lines)[i - 2]; }
      }
    }
  }

  // ================================================================ info, events, prices, menu

  function InfoTurn(s: Snapshot, ai: AIIntent): Turn {
    Turn(VenueCard(VenueOf(s.venueRows), ai.responseText), KeepState, [], [])
  }

  /** How many events `handle_events` asks for. */
  const EventLimit := 5

  function EventsTurn(s: Snapshot, now: Stamp): Turn {
    var events := VisibleEvents(s.eventRows, IsoDate(now), EventLimit);
    Turn(if events == [] then NoEvents else EventCards(events), KeepState, [], [])
  }

  /** The categories the price list shows, in the order it shows them. */
  const PriceCategories: seq<string> := ["hookah", "table", "drinks", "balloons", "extra"]

  function InCategory(prices: seq<Price>, category: string): seq<Price> {
    Collect(prices, (p: Price) => if p.category == category then Some(p) else None)
  }

  /** The non-empty groups, category by category, of `handle_prices`. */
  function PriceGroups(prices: seq<Price>): seq<(string, seq<Price>)> {
    Collect(PriceCategories, (c: string) => var g := InCategory(prices, c); if g == [] then None else Some((c, g)))
  }

  /** A price is listed exactly when its category is one of the five shown, and then under its own category. */
  lemma PriceListing(prices: seq<Price>, p: Price)
    ensures (exists g :: g in PriceGroups(prices) && p in g.1) <==> p in prices && p.category in PriceCategories
    ensures forall g :: g in PriceGroups(prices) && p in g.1 ==> g.0 == p.category
  {
    var f := (c: string) => var g := InCategory(prices, c); if g == [] then None else Some((c, g));
    var inCat := (c: string) => (q: Price) => if q.category == c then Some(q) else None;
    forall g | g in PriceGroups(prices)
      ensures g.1 == InCategory(prices, g.0) && g.0 in PriceCategories
    {
      CollectMembers(PriceCategories, f, g);
    }
    forall g | g in PriceGroups(prices) && p in g.1 ensures g.0 == p.category && p in prices {
      CollectMembers(prices, inCat(g.0), p);
    }
    if p in prices && p.category in PriceCategories {
      var c := p.category;
      var i :| 0 <= i < |prices| && prices[i] == p;
      CollectMembers(prices, inCat(c), p);
      assert p in InCategory(prices, c);
      var k :| 0 <= k < |PriceCategories| && PriceCategories[k] == c;
      CollectMembers(PriceCategories, f, (c, InCategory(prices, c)));
      assert (c, InCategory(prices, c)) in PriceGroups(prices);
    }
  }

  function PricesTurn(s: Snapshot): Turn {
    var prices := PricesOf(s.priceRows, None);
    Turn(if prices == [] then AskAdmin else PriceList(PriceGroups(prices)), KeepState, [], [])
  }

  function MenuTurn(s: Snapshot, slots: Object): Turn {
    var category := Get(slots, "category");
    var items := MenuFor(s, category);
    Turn(if items == [] then MenuUnavailable else MenuList(items), KeepState, [MenuRead(category)], [])
  }

  /** `/menu`: the menu handler with no slots, so every category. */
  function MenuCommandTurn(s: Snapshot): (t: Turn)
    ensures t.calls == [MenuRead(Null)]
  {
    MenuTurn(s, map[])
  }

  /** `/reset`: the state is deleted. */
  function ResetTurn(): Turn {
    Turn(ResetDone, ClearState, [], [])
  }

  // ================================================================ a whole message

  /** Nothing the chosen handler does raises. */
  predicate MessageInputsOk(s: Snapshot, stored: Option<Object>, ai: AIIntent) {
    (Route(ai.intent) == BookingHandler ==> BookingInputsOk(s, Merge(StartState(stored), ai.slots))) &&
    (Route(ai.intent) == OrderHandler ==> OrderInputsOk(s, ai.slots))
  }

  /** The turns of the handlers that look bookings or the menu up. */
  function LookupTurn(s: Snapshot, ai: AIIntent): Turn
    requires Route(ai.intent) in {CancelHandler, ModifyHandler, MenuHandler, OrderHandler}
    requires Route(ai.intent) == OrderHandler ==> OrderInputsOk(s, ai.slots)
  {
    match Route(ai.intent)
    case CancelHandler => CancelTurn(s, ai.slots)
    case ModifyHandler => ModifyTurn(s, ai.slots)
    case MenuHandler => MenuTurn(s, ai.slots)
    case OrderHandler => OrderTurn(s, ai.slots)
  }

  /** The turns of the handlers that only read the sheet. */
  function QueryTurn(s: Snapshot, ai: AIIntent, now: Stamp): Turn
    requires Route(ai.intent) in {InfoHandler, EventsHandler, PricesHandler, ChatHandler}
  {
    match Route(ai.intent)
    case InfoHandler => InfoTurn(s, ai)
    case EventsHandler => EventsTurn(s, now)
    case PricesHandler => PricesTurn(s)
    case ChatHandler => Turn(Chat(ai.responseText), KeepState, [], [])
  }

  /** The turn `handle_message` takes once the intent is known. */
  function MessageTurn(s: Snapshot, stored: Option<Object>, ai: AIIntent, now: Stamp): Turn
    requires MessageInputsOk(s, stored, ai)
  {
    var h := Route(ai.intent);
    if h == BookingHandler then BookingTurn(s, stored, ai.slots, now)
    else if h in {CancelHandler, ModifyHandler, MenuHandler, OrderHandler} then LookupTurn(s, ai)
    else QueryTurn(s, ai, now)
  }

  /** Only the booking handler touches the stored state or writes rows; the others leave both alone. */
  lemma OnlyBookingChangesState(s: Snapshot, stored: Option<Object>, ai: AIIntent, now: Stamp)
    requires MessageInputsOk(s, stored, ai)
    ensures Route(ai.intent) != BookingHandler ==>
      MessageTurn(s, stored, ai, now).effect == KeepState && MessageTurn(s, stored, ai, now).appended == []
  {
  }

  function UserMessage(text: string): Value {
    Dict(map["role" := Str("user"), "content" := Str(text)])
  }

  function AssistantMessage(text: string): Value {
    Dict(map["role" := Str("assistant"), "content" := Str(text)])
  }

  /** The key space after both context writes of `handle_message`. */
  function Remembered(kv: map<string, Value>, userId: int, text: string, ai: AIIntent): map<string, Value> {
    Remember(Remember(kv, userId, UserMessage(text)), userId, AssistantMessage(ai.responseText))
  }

  /**
   * The context after a message ends with the user's text and then the
   * classifier's answer, within the ten-entry window; the state the handler
   * reads is the one stored before the message.
   */
  lemma RememberedSpec(kv: map<string, Value>, userId: int, text: string, ai: AIIntent)
    ensures var c := ContextIn(Remembered(kv, userId, text, ai), userId);
      c == LastN(ContextIn(kv, userId) + [UserMessage(text), AssistantMessage(ai.responseText)], ContextLimit) &&
      |c| >= 2 && c[|c| - 2] == UserMessage(text) && c[|c| - 1] == AssistantMessage(ai.responseText)
    ensures StateIn(Remembered(kv, userId, text, ai), userId) == StateIn(kv, userId)
  {
    RememberTwice(kv, userId, UserMessage(text), AssistantMessage(ai.responseText));
  }
}
