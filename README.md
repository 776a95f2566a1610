# QRIM Lounge booking bot: a verified model of its decision core

The QRIM Lounge Telegram bot takes table bookings, cancellations, changes
and menu orders. It also answers questions about the venue, its events and
its prices. A classifier turns each chat message into an intent with slots.
The bot then reads and writes two stores:

- a Google spreadsheet with the venue, tables, bookings, events, price and menu sheets;
- a Redis key space with one slot-filling state and one ten-message context per user.

This project models four parts of that core in Dafny and proves what each one promises:

* **Availability engine** (`booking.dfy`, module `BookingEngine`). The
  first-fit table search of `check_availability` is written out twice:
  - `FindTable` is the nested loop, with its `continue`, `break` and early return;
  - `FirstFit` is a recursive specification function.

  `FindTable` is proved equal to `FirstFit`. Lemmas about `FirstFit` cover:
  - the capacity rule;
  - the strict 120-minute buffer;
  - cancelled bookings being ignored;
  - the first-fit order;
  - the echoed request.

  `BookingService` is a class over the sheet client, which it shares with the bot.
* **Sheet readers and writer** (`sheets.dfy`, module `Sheets`). `SheetsClient`
  holds each sheet as a `seq<seq<string>>` field. Each reader is a loop method
  proved equal to a row-by-row function, and the lemmas state what those
  functions keep and drop:
  - venue keys: the last row wins, with defaults;
  - active tables, the bookings of one date, prices by category;
  - active, unfinished events cut to a limit.

  `CreateBooking` appends the fixed 10-column row. The sheet operations the
  handlers call but `sheets.py` does not define are answered from fixed
  fields of the client, and every call is appended to a call log `log`. Only
  the calls are observable.
* **Per-user store** (`redis.dfy`, module `Redis`). `RedisClient` holds one
  key space `kv: map<string, Value>`, with keys `state:<id>` and
  `context:<id>`. Its methods are proved against pure functions `Store`,
  `Drop` and `Remember`, and lemmas cover:
  - key disjointness and key injectivity;
  - the last-ten window;
  - independence between users and between state and context.
* **Conversation logic** (`dialogue.dfy`, module `Dialogue`, and
  `handlers.dfy`, module `Handlers`). Every handler outcome is a pure `Turn`
  holding four things:
  - the reply, as an outcome variant instead of Russian text;
  - the effect on the user's state (keep, save, clear);
  - the sheet calls made, in order;
  - the rows appended.

  Lemmas state the slot-filling, duplicate, cancel, modify and order rules.
  The `Bot` class in `handlers.dfy` makes the same calls in the source's
  order on the two stores. Each of its methods is proved to end exactly as
  its `Turn` says. `MergeSlots` and `PlaceOrders` are the source's two loops.

Other modules:

- support modules: `Json` for slot values (`dict.get`, truthiness, `int()`), `Text` (`upper`/`lower`, code-point string order, decimal rendering), `Clock` (`HH:MM` parsing, timestamp formats), `Rows` (filter-map and last-write folds) and `Wrappers`;
- `Schemas`, which holds the record types of `app/models/schemas.py` as datatypes.

Times are minutes since midnight. A request or booking time that `strptime`
would reject makes the search return `Err(<that string>)`. Only the times the
loop actually reaches are parsed, so a bad time on a table that is never
examined does no harm. The handler answers `Crashed`, and the stored state is
left as it was, because the exception escapes before any delete.

In these places the model follows the code as written:

* Booking ids are `"B"` followed by the clock as `%Y%m%d%H%M%S`. They are not a scan for the highest numeric suffix.
* Order items match only by the exact lowercased name. There is no substring fallback.
* Malformed times and non-numeric guests raise exceptions. They are not turned into an "ask staff" reply. The model states the `int()` cases as preconditions, and the `strptime` case ends in the `Crashed` reply.
* A modify request for a single booking that supplies neither guests nor time falls through to the list of bookings, as the code does.

## Model

| member | source | states |
|---|---|---|
| BookingEngine.ScanMeaning | app/services/booking.py:23-31 | The inner loop finds a blocking booking exactly when some non-cancelled booking of the table is strictly less than 120 minutes away. A booking exactly 120 minutes away, or with status `cancelled`, never blocks. An error names an unparsable time that the loop reached. |
| BookingEngine.FirstFit | app/services/booking.py:11-47 | The slot echoes the date, time and guests in both outcomes. `available` holds exactly when a table id is given, and that table is in the list with capacity at least `guests`. |
| BookingEngine.PassedOverShift | app/services/booking.py:18-20 | Each table before the chosen one was either too small or occupied. This stays true when the list is shifted by its head. |
| BookingEngine.FirstFitAvailable | app/services/booking.py:18-40 | When a table is offered, it is the first in list order that both seats the party and has no blocking booking. Every earlier table was too small or occupied. |
| BookingEngine.FirstFitUnavailable | app/services/booking.py:18-47 | An unavailable result means every table was too small or occupied. |
| BookingEngine.FirstFitError | app/services/booking.py:24-27 | An error comes from the scan of the first qualifying table that was not passed over. |
| BookingEngine.FirstFitTotal | app/services/booking.py:26-27 | When every time the search can reach parses, the search does not fail. |
| BookingEngine.FirstFitComplete | app/services/booking.py:18-40 | If some table seats the party and has no blocking booking, the result is available. |
| BookingEngine.NoTableBigEnough | app/services/booking.py:18-20 | If no table has `capacity >= guests`, the result is exactly the unavailable slot with no table id. |
| BookingEngine.FindTable | app/services/booking.py:18-47 | The nested loop with `continue`, `break` and early return computes exactly `FirstFit`. |
| BookingEngine.RequestData | app/services/booking.py:51-60 | The booking data carries source `telegram` and status `confirmed`. |
| BookingEngine.RequestRecord | app/services/booking.py:49-61 | Read back, the created booking has the request's date, time, guests, name and phone. It also has the given table id, source `telegram`, status `confirmed` and the clock's id. |
| BookingEngine.BookedSlotBlocks | app/services/booking.py:24-31 | A freshly created booking blocks its own table at its own time. |
| BookingEngine.BookedTableNotOfferedAgain | app/services/booking.py:18-40 | Once a booking is appended, a later search on that date never offers the same table at any time less than two hours away. |
| BookingEngine.SampleInsideBuffer | app/services/booking.py:29 | T2 is booked at 19:00. A request for 3 guests at 20:30 is inside the buffer, which skips T2 and offers T3. |
| BookingEngine.SampleAtBufferEdge | app/services/booking.py:29 | T2 is booked at 19:00. A request at 21:00 is exactly 120 minutes away, so T2 is free. |
| BookingEngine.SampleCancelledIgnored | app/services/booking.py:25 | A cancelled booking at 19:00 does not occupy T2 at 19:30. |
| BookingEngine.SampleBadTime | app/services/booking.py:26-27 | A request time of `25:00` is never parsed when the first fitting table has no live booking. When the loop compares it, the search fails with that string. |
| BookingEngine.BookingService.CheckAvailability | app/services/booking.py:11-47 | The method reads the tables and the date's bookings, then returns the first-fit result over them. |
| BookingEngine.BookingService.CreateBooking | app/services/booking.py:49-61 | The method appends exactly the one row built from the request, the given table, `telegram` and `confirmed`. It returns the clock's id. |
| Clock.ParseClock | app/services/booking.py:26-27 | A time that `strptime('%H:%M')` accepts is a minute of the day, below 1440. |
| Clock.ClockRoundTrip | app/services/booking.py:26-27 | Every minute of the day, written as `HH:MM`, parses back to itself. |
| Clock.CompactStamp | app/services/sheets.py:93 | `%Y%m%d%H%M%S` renders 14 digits. |
| Clock.CompactStampRoundTrip | app/services/sheets.py:93 | The 14-digit stamp reads back to the moment it was made from. |
| Clock.CompactStampInjective | app/services/sheets.py:93 | Different moments give different booking ids. |
| Clock.DisplayStamp | app/services/sheets.py:94 | `created_at` has the 16 characters of `%Y-%m-%d %H:%M`. |
| Clock.IsoDate | app/services/sheets.py:116 | `today` is a ten-character `YYYY-MM-DD` date. |
| Text.LowerCharSame | app/bot/handlers.py:405-412 | Two characters lowercase alike exactly when they are the same ASCII or basic Cyrillic letter up to case. |
| Text.LowerSame | app/bot/handlers.py:405-412 | Two strings lowercase to the same string exactly when they have the same length and agree letter by letter up to case. |
| Text.TrueFlagIff | app/services/sheets.py:60 | A cell is an active flag exactly when it is `TRUE` in any mix of letter case. |
| Text.LexGeTransitive | app/services/sheets.py:124 | The string order used for `date_to >= today` is transitive. |
| Text.IntToStringRoundTrip | app/services/redis_client.py:15 | The decimal rendering of a user id parses back to that id. |
| Json.AsIntReadsBack | app/bot/handlers.py:207 | `int()` reads back every integer, whether the slot holds the number or its decimal text. |
| Sheets.VenueKey | app/services/sheets.py:38-42 | A key is in the venue dictionary exactly when some row with at least two cells sets it. The stored value comes from the last such row. |
| Sheets.VenueDefaults | app/services/sheets.py:44-52 | A key that no row sets falls back to its default: `QRIM Lounge` for name, `Europe/Moscow` for timezone, and the empty string for city, address, phone, `work_sun_thu` and `work_fri_sat`. |
| Sheets.TablesSpec | app/services/sheets.py:56-69 | A table is returned exactly when a row with at least 5 cells has an active flag in column 4. The table is that row's fields, and it is active. |
| Sheets.BookingsSpec | app/services/sheets.py:73-89 | A booking is returned exactly when a row with at least 10 cells has that date in column 1. Every returned booking has the asked date. |
| Sheets.BookingId | app/services/sheets.py:93 | The id is 15 characters long and starts with `B`. |
| Sheets.BookingRow | app/services/sheets.py:96-107 | The appended row has exactly 10 cells. |
| Sheets.CreateThenRead | app/services/sheets.py:71-110 | Appending a booking row keeps the sheet readable. Reading a date afterwards gives the old bookings, followed by the new one exactly when its date matches. |
| Sheets.EventOfRow | app/services/sheets.py:118-136 | A returned event is active and has `date_to >= today`. Its image is `None` exactly when column 7 is empty, and its call to action is the flag of column 8. |
| Sheets.Prefix | app/services/sheets.py:138 | `events[:limit]` is a prefix of `events`. For a non-negative limit, its length is the smaller of the limit and the length. |
| Sheets.EventsSpec | app/services/sheets.py:114-138 | The shown events are the first qualifying rows in sheet order, at most `limit` of them. Each is active, not finished and built from its row. |
| Sheets.EventsShownEarlier | app/services/sheets.py:124 | An event shown on a later day is also shown on an earlier day. |
| Sheets.PricesSpec | app/services/sheets.py:142-165 | A price is returned exactly when an active row with at least 8 cells matches the category, or no category is given. Every result is active and has the asked category. |
| Sheets.SheetsClient.GetVenueInfo | app/services/sheets.py:36-52 | The loop builds exactly the venue record of the venue sheet. |
| Sheets.SheetsClient.GetTables | app/services/sheets.py:54-69 | The append loop returns exactly the parsed active tables, in row order. |
| Sheets.SheetsClient.GetBookings | app/services/sheets.py:71-89 | The append loop returns exactly the bookings of the date, in row order. |
| Sheets.SheetsClient.CreateBooking | app/services/sheets.py:91-110 | The sheet gains exactly the one row. The id returned is its first cell and starts with `B`. |
| Sheets.SheetsClient.GetEvents | app/services/sheets.py:112-138 | The loop returns exactly the visible events for the clock's date, cut to `limit`. |
| Sheets.SheetsClient.GetPrices | app/services/sheets.py:140-165 | The loop returns exactly the active prices of the category. |
| Sheets.SheetsClient.CheckDuplicateBooking | app/bot/handlers.py:195 | The call is logged, and its answer is the store's answer for the phone and date. |
| Sheets.SheetsClient.FindBookingByPhone | app/bot/handlers.py:255 | The call is logged, and its answer is the store's list for the phone. |
| Sheets.SheetsClient.CancelBooking | app/bot/handlers.py:264 | The call is logged with the booking id, and its answer is the store's answer. |
| Sheets.SheetsClient.UpdateBooking | app/bot/handlers.py:309 | The call is logged with the booking id and the update map. |
| Sheets.SheetsClient.GetMenu | app/bot/handlers.py:334 | The call is logged with the category, and its answer is the store's menu. |
| Sheets.SheetsClient.CreateOrder | app/bot/handlers.py:414-419 | The call is logged with the booking id, item, quantity and amount. |
| Redis.StateKeyInjective | app/services/redis_client.py:15 | Different users have different state keys. |
| Redis.ContextKeyInjective | app/services/redis_client.py:29 | Different users have different context keys. |
| Redis.KeysDisjoint | app/services/redis_client.py:15-29 | No state key is a context key. |
| Redis.LastN | app/services/redis_client.py:35-36 | `context[-10:]` is the last `min(10, len)` entries, in order. |
| Redis.Window | app/services/redis_client.py:33-36 | After `add_to_context`, the context holds 1 to 10 entries and the new message is last. |
| Redis.WindowOfWindow | app/services/redis_client.py:33-36 | Trimming and then adding gives the last ten of the whole history. |
| Redis.ReplayKeepsLastTen | app/services/redis_client.py:32-41 | Adding messages one at a time from nothing leaves exactly the last ten, in order. |
| Redis.StoreSpec | app/services/redis_client.py:18-23 | After `set_state(u, s)`, `get_state(u)` is `s`. Other users' states and every context are unchanged. |
| Redis.DropSpec | app/services/redis_client.py:25-26 | After `delete_state(u)`, `get_state(u)` is `None`. Everything else is unchanged. |
| Redis.PutContextSpec | app/services/redis_client.py:37-41 | Writing a user's context changes only that context. |
| Redis.RememberSpec | app/services/redis_client.py:32-41 | `add_to_context` changes only that user's context, to the window of the old one plus the message. |
| Redis.RememberTwice | app/bot/handlers.py:53-54 | After the two writes of a message, the user's text and then the reply are the last two entries of the last ten. The state is untouched. |
| Redis.StoreWellTyped | app/services/redis_client.py:18-23 | `set_state` keeps state keys holding objects and context keys holding lists. |
| Redis.DropWellTyped | app/services/redis_client.py:25-26 | `delete_state` keeps the key space well typed. |
| Redis.PutContextWellTyped | app/services/redis_client.py:37-41 | Writing a context keeps the key space well typed. |
| Redis.RememberWellTyped | app/services/redis_client.py:32-41 | `add_to_context` keeps the key space well typed. |
| Redis.RedisClient.GetState | app/services/redis_client.py:14-16 | The method returns the stored state. It is `None` exactly when the key is absent. |
| Redis.RedisClient.SetState | app/services/redis_client.py:18-23 | The key space becomes `Store` of the old one, and stays well typed. |
| Redis.RedisClient.DeleteState | app/services/redis_client.py:25-26 | The key space becomes `Drop` of the old one, and stays well typed. |
| Redis.RedisClient.GetContext | app/services/redis_client.py:28-30 | The method returns the stored list, or `[]` when the key is absent. |
| Redis.RedisClient.AddToContext | app/services/redis_client.py:32-41 | The key space becomes `Remember` of the old one: the appended, trimmed window. It stays well typed. |
| Dialogue.Route | app/bot/handlers.py:57-82 | Each of the eight intents goes to its own handler. Exactly the other strings go to the plain chat reply. |
| Dialogue.RouteReachesEveryHandler | app/bot/handlers.py:57-79 | Every handler is reached by its intent. |
| Dialogue.Missing | app/bot/handlers.py:177-178 | A field is listed as missing exactly when it is absent from the state or `None`. |
| Dialogue.NeedExtends | app/bot/handlers.py:177-178 | Adding a later field keeps the list in the order of `required`. |
| Dialogue.MissingOrdered | app/bot/handlers.py:177-178 | The missing fields come in the order date, time, guests, name, phone. |
| Dialogue.FirstMissing | app/bot/handlers.py:178-191 | The field prompted for is missing, and every field before it in that order is filled. |
| Dialogue.MergeSpec | app/bot/handlers.py:172-174 | Every non-`None` slot overwrites its key. `None` slots never erase an entry, and keys absent from the slots keep their value. |
| Dialogue.MergeIdempotent | app/bot/handlers.py:172-174 | Merging the same slots twice changes nothing more. |
| Dialogue.MergeOnlyFills | app/bot/handlers.py:172-178 | A merge never makes a filled field missing. |
| Dialogue.MergeStoresNoNone | app/bot/handlers.py:172-174 | A state without `None` values stays without them. |
| Dialogue.BookingAsksFirstMissing | app/bot/handlers.py:180-192 | While a field is missing, the turn asks for the first missing one and saves the merged state. It makes no sheet call and appends no row. |
| Dialogue.BookingDuplicateStops | app/bot/handlers.py:194-201 | A complete state makes exactly one duplicate check and nothing else. A duplicate clears the state, and nothing is created. |
| Dialogue.BookingWritesOnlyWhenBooked | app/bot/handlers.py:203-242 | A row is appended exactly when the reply is `Booked`, and the error reply never occurs. Every terminal path clears the state. A booking goes to the offered table, which seats the party and has no blocking booking at the requested time. |
| Dialogue.CancelOnlyTheSingleMatch | app/bot/handlers.py:245-281 | `cancel_booking` is called exactly when a phone is given and one booking is found, and with that booking's id. Several matches give the list reply. |
| Dialogue.Updates | app/bot/handlers.py:303-307 | The update map holds exactly the truthy `guests` and `time` slots, with their values. |
| Dialogue.ModifyOnlyTheSingleMatch | app/bot/handlers.py:284-327 | `update_booking` is called exactly when one booking is found and guests or time is given. It uses that booking's id and exactly the supplied keys. One booking with nothing to change gives the list reply. |
| Dialogue.MatchesUpToCase | app/bot/handlers.py:405-413 | A requested item matches the menu exactly when some menu item has the same name up to letter case. |
| Dialogue.MenuIndexSpec | app/bot/handlers.py:404-405 | A lowercased name is a key of the menu map exactly when some item has that name. The map keeps the last such item. |
| Dialogue.OrderLinesSpec | app/bot/handlers.py:407-421 | An order line exists exactly when an item matches the menu by lowercased name. It carries the menu name, the quantity and price times quantity. |
| Dialogue.DefaultQuantityIsOne | app/bot/handlers.py:409 | An item without a quantity is ordered once. |
| Dialogue.OrderTotalStep | app/bot/handlers.py:420 | Each created order adds its amount to the total. |
| Dialogue.OrderTotalIsMatchedCost | app/bot/handlers.py:400-421 | The total is the sum of price times quantity over the matched items. |
| Dialogue.OrderCalls | app/bot/handlers.py:414-419 | One `create_order` per line, in order, with the line's name, quantity and amount. |
| Dialogue.OrderCallsStep | app/bot/handlers.py:407-421 | Each matched item adds its own call after the previous ones. |
| Dialogue.OrderStep | app/bot/handlers.py:407-421 | One more item adds its line, its amount and its call, or nothing when it does not match. |
| Dialogue.OrderAttachesToFirstBooking | app/bot/handlers.py:389-429 | Every order is attached to `bookings[0]`. The reported total is the matched cost. |
| Dialogue.PriceListing | app/bot/handlers.py:150-160 | A price is listed exactly when its category is one of the five known ones, and it is listed under that category. |
| Dialogue.MenuCommandTurn | app/bot/handlers.py:33-38 | `/menu` reads the whole menu once, with no category. |
| Dialogue.OnlyBookingChangesState | app/bot/handlers.py:56-82 | No intent other than booking touches the stored state or appends a row. |
| Dialogue.RememberedSpec | app/bot/handlers.py:47-54 | After a message, the context is the last ten of the old one plus the user's text and the reply. The state read by the handlers is unchanged. |
| Handlers.MergeSlots | app/bot/handlers.py:172-174 | The loop writes every non-`None` slot into the state, giving exactly `Merge`. |
| Handlers.Bot.HandleBooking | app/bot/handlers.py:166-242 | The reply, the new key space, the calls and the appended rows are exactly those of the booking turn on the stored state merged with the slots. |
| Handlers.Bot.FinishBooking | app/bot/handlers.py:176-242 | Given the merged state, the method does exactly the booking turn. |
| Handlers.Bot.BookIfFree | app/bot/handlers.py:203-242 | The availability, creation and delete steps follow the booking turn. |
| Handlers.Bot.HandleCancel | app/bot/handlers.py:245-281 | The reply and the calls are exactly those of the cancel turn. |
| Handlers.Bot.HandleModify | app/bot/handlers.py:284-327 | The reply and the calls are exactly those of the modify turn. |
| Handlers.Bot.HandleMenu | app/bot/handlers.py:330-371 | The reply and the menu read are exactly those of the menu turn. |
| Handlers.Bot.PlaceOne | app/bot/handlers.py:408-421 | One pass of the order loop yields the item's line, logging its `create_order` exactly when it matches. |
| Handlers.Bot.PlaceOrders | app/bot/handlers.py:400-421 | The loop yields exactly the order lines and their total, and logs one `create_order` per line. |
| Handlers.Bot.HandleOrder | app/bot/handlers.py:374-429 | The reply and the calls are exactly those of the order turn. |
| Handlers.Bot.OrderFromMenu | app/bot/handlers.py:399-429 | After one menu read, the reply lists the lines and their total, or reports that nothing matched. |
| Handlers.Bot.HandleInfo | app/bot/handlers.py:85-96 | The reply carries the venue record and the classifier's text. |
| Handlers.Bot.HandleEvents | app/bot/handlers.py:99-125 | The reply is the visible events, at most five, or the no-events reply. |
| Handlers.Bot.HandlePrices | app/bot/handlers.py:128-163 | The reply is the prices grouped by known category, or the ask-admin reply when there are none. |
| Handlers.Bot.CmdReset | app/bot/handlers.py:27-30 | `/reset` deletes the user's state. |
| Handlers.Bot.CmdMenu | app/bot/handlers.py:33-38 | `/menu` behaves as the menu handler with no category. |
| Handlers.Bot.Dispatch | app/bot/handlers.py:56-82 | The routed handler does exactly the message turn. |
| Handlers.Bot.DispatchLookup | app/bot/handlers.py:69-79 | Cancel, modify, menu and order are routed to their turns. |
| Handlers.Bot.DispatchQuery | app/bot/handlers.py:57-64 | Info, events, prices and plain chat are routed to their turns. |
| Handlers.Bot.HandleMessage | app/bot/handlers.py:41-82 | The classifier sees the context from before the message. Both messages join the context, and the message turn follows. |

## Left out

- The Google Sheets client, its credentials and `_read_range`/`_append_range`. The sheets are in-memory rows held by `SheetsClient`.
- The Redis connection, TTL expiry and JSON encoding. Stored values are kept as they are, and expiry never happens.
- The AI classifier. `HandleMessage` takes it as the function parameter `classify`.
- Reply texts, emoji, formatting, the photo-send fallback, `/start`'s fixed greeting, and the grouping of menu items by category for display. The reply variants carry the data the texts are built from.
- The bodies of `check_duplicate_booking`, `find_booking_by_phone`, `cancel_booking`, `update_booking`, `get_menu` and `create_order`. They are not in the modelled sheet code. The client answers them from fixed fields and logs each call. The order ids `create_order` returns are not used by the handler, so none are modelled. `get_menu()` without an argument is taken to be the same read as `get_menu(None)`, `MenuRead(Null)`. The default parameter of `get_menu` is in code this model does not include, so that is an assumption.
- The exception branch of `handle_prices` around `get_prices`. The in-memory reader cannot fail.
- Races between the availability check and creation, and between the duplicate check and creation. They are concurrency issues.
- Debug `print` calls.
- `datetime.now()`. One `Stamp` parameter stands for both clock readings of `create_booking`, and the model assumes four-digit years.
- Text.Upper: maps only ASCII and basic Cyrillic letters. Python's full Unicode case mapping is not modelled.
- Text.Lower: maps only ASCII and basic Cyrillic letters and always keeps the length. Python's `lower()` also maps letters such as `É` to `é`, and turns `İ` into two code points, so menu names with such letters may match in Python where the model says they do not.
- Clock.ParseClock: accepts one or two ASCII digits per field. Python's `strptime` also accepts other Unicode digits.
- Json.AsInt: accepts a string only when it is an optional sign followed by ASCII digits. Python's `int()` also accepts surrounding whitespace, underscores between digits and other Unicode digits.
- Sheets.SheetsClient.GetTables: requires column 2 of every counted row to be an integer literal, because `int()` would raise.
- Sheets.SheetsClient.GetBookings: requires column 3 of every counted row of the date to be an integer literal, for the same reason.
- Handlers.Bot.HandleBooking: past the duplicate check, it requires three things. Date and time are strings, and guests is convertible by `int()`. The table and booking rows the readers keep have integer cells. Name and phone are strings when a table is found. Each of these would raise in the source, through `int()` or through the validation of `BookingSlot` and `BookingRequest`.
- Handlers.Bot.HandleOrder: requires each requested item to be an object with a string name, and a matched item's quantity to be an integer. A non-object item, a non-string name or a string quantity makes the source raise. A boolean quantity does not: Python multiplies the price by 0 or 1 and passes `True` or `False` to `create_order`, and that case is outside the model.
- Json.Value: has no floating-point numbers, so a classifier slot such as `"guests": 4.0`, which `int()` at handlers.py:207 turns into 4, or a fractional order quantity is outside the model.
- Sheets.BookingRow: writes `guests` as its decimal text. The source writes the integer and relies on the sheet to store it.
