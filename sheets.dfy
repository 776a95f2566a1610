/**
 * The spreadsheet adapter of app/services/sheets.py. Each tab is held as the
 * rows that reading its range returns; each reader is a loop over those rows,
 * proved equal to a function of them, and the properties of the readers are
 * lemmas about those functions.
 */
module Sheets {
  import opened Wrappers
  import opened Text
  import opened Json
  import opened Clock
  import opened Rows
  import opened Schemas

  // ================================================================ venue (key/value tab)

  function VenuePair(row: Row): Option<(string, string)> {
    if |row| >= 2 then Some((row[0], row[1])) else None
  }

  /** `venue_dict` after the loop: column A maps to column B, later rows overriding earlier ones. */
  function VenueDict(rows: seq<Row>): map<string, string> {
    FoldLast(rows, VenuePair)
  }

  /** `d.get(k, default)`. */
  function Lookup(d: map<string, string>, k: string, default: string): string {
    if k in d then d[k] else default
  }

  function VenueOf(rows: seq<Row>): VenueInfo {
    var d := VenueDict(rows);
    VenueInfo(
      Lookup(d, "name", "QRIM Lounge"), Lookup(d, "city", ""), Lookup(d, "address", ""),
      Lookup(d, "phone", ""), Lookup(d, "timezone", "Europe/Moscow"),
      Lookup(d, "work_sun_thu", ""), Lookup(d, "work_fri_sat", ""))
  }

  /** A row that sets the venue key `k`: at least two cells, the first being `k`. */
  predicate SetsKey(row: Row, k: string) {
    |row| >= 2 && row[0] == k
  }

  /**
   * What the venue tab says about key `k`: nothing when no row of two or
   * more cells names it (rows shorter than two cells are ignored), and
   * otherwise the second cell of the LAST row that names it.
   */
  lemma VenueKey(rows: seq<Row>, k: string)
    ensures k in VenueDict(rows) <==> exists i :: 0 <= i < |rows| && SetsKey(rows[i], k)
    ensures k in VenueDict(rows) ==>
      exists j :: 0 <= j < |rows| && SetsKey(rows[j], k) && VenueDict(rows)[k] == rows[j][1] &&
        forall i :: j < i < |rows| ==> !SetsKey(rows[i], k)
  {
    FoldLastSpec(rows, VenuePair, k);
    assert forall i :: 0 <= i < |rows| ==> (Binds(VenuePair, rows[i], k) <==> SetsKey(rows[i], k));
  }

  /** Keys the tab does not set take the source's defaults. */
  lemma VenueDefaults(rows: seq<Row>)
    ensures (forall i :: 0 <= i < |rows| ==> !SetsKey(rows[i], "name")) ==> VenueOf(rows).name == "QRIM Lounge"
    ensures (forall i :: 0 <= i < |rows| ==> !SetsKey(rows[i], "timezone")) ==> VenueOf(rows).timezone == "Europe/Moscow"
    ensures (forall i :: 0 <= i < |rows| ==> !SetsKey(rows[i], "city")) ==> VenueOf(rows).city == ""
    ensures (forall i :: 0 <= i < |rows| ==> !SetsKey(rows[i], "phone")) ==> VenueOf(rows).phone == ""
    ensures (forall i :: 0 <= i < |rows| ==> !SetsKey(rows[i], "address")) ==> VenueOf(rows).address == ""
    ensures (forall i :: 0 <= i < |rows| ==> !SetsKey(rows[i], "work_sun_thu")) ==> VenueOf(rows).workSunThu == ""
    ensures (forall i :: 0 <= i < |rows| ==> !SetsKey(rows[i], "work_fri_sat")) ==> VenueOf(rows).workFriSat == ""
  {
    VenueKey(rows, "name");
    VenueKey(rows, "timezone");
    VenueKey(rows, "city");
    VenueKey(rows, "phone");
    VenueKey(rows, "address");
    VenueKey(rows, "work_sun_thu");
    VenueKey(rows, "work_fri_sat");
  }

  // ================================================================ tables

  /** One row of `tables!A2:E`: kept when it has five cells and column E is a true flag. */
  function TableOfRow(row: Row): Option<Table> {
    if |row| >= 5 then
      var active := IsTrueFlag(row[4]);
      if active then Some(Table(row[0], row[1], ParseInt(row[2]), row[3], active)) else None
    else None
  }

  /** `int(row[2])` does not raise on any row that `get_tables` keeps. */
  predicate TableRowsOk(rows: seq<Row>) {
    forall i :: 0 <= i < |rows| && |rows[i]| >= 5 && IsTrueFlag(rows[i][4]) ==> IsIntLiteral(rows[i][2])
  }

  function TablesOf(rows: seq<Row>): seq<Table> {
    Collect(rows, TableOfRow)
  }

  /**
   * `get_tables` returns one table per row with at least five cells whose
   * flag is `TRUE` in any case, built positionally, and only active tables.
   */
  lemma TablesSpec(rows: seq<Row>, t: Table)
    ensures t in TablesOf(rows) <==>
      exists i :: 0 <= i < |rows| && |rows[i]| >= 5 && IsTrueFlag(rows[i][4]) &&
        t == Table(rows[i][0], rows[i][1], ParseInt(rows[i][2]), rows[i][3], true)
    ensures t in TablesOf(rows) ==> t.active
  {
    CollectMembers(rows, TableOfRow, t);
  }

  // ================================================================ bookings

  /** One row of `bookings!A2:J`: kept when it has ten cells and column B equals `date`. */
  function BookingOfRow(row: Row, date: string): Option<Booking> {
    if |row| >= 10 && row[1] == date then
      Some(Booking(row[0], row[1], row[2], ParseInt(row[3]), row[4], row[5], row[6], row[7], row[8], row[9]))
    else None
  }

  /** `int(row[3])` does not raise on any row that `get_bookings(date)` keeps. */
  predicate BookingRowsOk(rows: seq<Row>, date: string) {
    forall i :: 0 <= i < |rows| && |rows[i]| >= 10 && rows[i][1] == date ==> IsIntLiteral(rows[i][3])
  }

  function BookingsOf(rows: seq<Row>, date: string): seq<Booking> {
    Collect(rows, (row: Row) => BookingOfRow(row, date))
  }

  /** Every booking `get_bookings(date)` returns is on `date` and comes from a row of ten or more cells. */
  lemma BookingsSpec(rows: seq<Row>, date: string, b: Booking)
    ensures b in BookingsOf(rows, date) <==>
      exists i :: 0 <= i < |rows| && |rows[i]| >= 10 && rows[i][1] == date &&
        b == BookingOfRow(rows[i], date).value
    ensures b in BookingsOf(rows, date) ==> b.date == date
  {
    CollectMembers(rows, (row: Row) => BookingOfRow(row, date), b);
  }

  // ================================================================ create_booking

  /** The `booking_data` dict; `source` and `status` may be left out. */
  datatype BookingData = BookingData(
    date: string, time: string, guests: int, tableId: string, name: string, phone: string,
    source: Option<string>, status: Option<string>)

  /** `f"B{now.strftime('%Y%m%d%H%M%S')}"`. */
  function BookingId(now: Stamp): (id: string)
    ensures |id| == 15 && id[0] == 'B'
  {
    "B" + CompactStamp(now)
  }

  /** The ten cells `create_booking` appends, in column order A..J. */
  function BookingRow(data: BookingData, now: Stamp): (row: Row)
    ensures |row| == 10
  {
    [BookingId(now), data.date, data.time, IntToString(data.guests), data.tableId, data.name, data.phone,
     data.source.GetOr("telegram"), data.status.GetOr("confirmed"), DisplayStamp(now)]
  }

  /** The booking a reader sees in the row `create_booking` writes. */
  function RecordOf(data: BookingData, now: Stamp): Booking {
    Booking(BookingId(now), data.date, data.time, data.guests, data.tableId, data.name, data.phone,
            data.source.GetOr("telegram"), data.status.GetOr("confirmed"), DisplayStamp(now))
  }

  /**
   * Writing then reading: the appended row is read back by `get_bookings`
   * for its date as exactly the booking that was written (the guest count
   * survives `str` and `int`), after the bookings already there, and it
   * changes nothing for other dates.
   */
  lemma CreateThenRead(rows: seq<Row>, data: BookingData, now: Stamp, date: string)
    ensures BookingRowsOk(rows, date) ==> BookingRowsOk(rows + [BookingRow(data, now)], date)
    ensures BookingsOf(rows + [BookingRow(data, now)], date) ==
      BookingsOf(rows, date) + (if date == data.date then [RecordOf(data, now)] else [])
  {
    var row := BookingRow(data, now);
    IntToStringRoundTrip(data.guests);
    CollectAppend(rows, [row], (r: Row) => BookingOfRow(r, date));
    assert [row][..0] == [];
    var ext := rows + [row];
    if BookingRowsOk(rows, date) {
      forall i | 0 <= i < |ext| && |ext[i]| >= 10 && ext[i][1] == date ensures IsIntLiteral(ext[i][3]) {
        if i < |rows| { assert ext[i] == rows[i]; }
      }
    }
  }

  // ================================================================ events

  /** One row of `events!A2:J`: kept when it has ten cells, column J is a true flag and `date_to >= today`. */
  function EventOfRow(row: Row, today: string): (e: Option<Event>)
    ensures e.Some? ==> e.value.active && LexGe(e.value.dateTo, today)
    ensures e.Some? ==> |row| >= 10 && (e.value.imageUrl.None? <==> row[7] == "") && e.value.bookingCta == IsTrueFlag(row[8])
  {
    if |row| >= 10 then
      var active := IsTrueFlag(row[9]);
      var dateTo := row[4];
      if active && LexGe(dateTo, today) then
        Some(Event(row[0], row[1], row[2], row[3], row[4], row[5], row[6],
                   if |row| > 7 && row[7] != "" then Some(row[7]) else None,
                   IsTrueFlag(row[8]), active))
      else None
    else None
  }

  function EventsOf(rows: seq<Row>, today: string): seq<Event> {
    Collect(rows, (row: Row) => EventOfRow(row, today))
  }

  /** Python's `xs[:limit]`, including its meaning for a negative `limit`. */
  function Prefix<T>(xs: seq<T>, limit: int): (r: seq<T>)
    ensures limit >= 0 ==> |r| == if limit <= |xs| then limit else |xs|
    ensures |r| <= |xs| && r == xs[..|r|]
  {
    if limit >= 0 then (if limit <= |xs| then xs[..limit] else xs)
    else if |xs| + limit >= 0 then xs[..|xs| + limit] else []
  }

  function VisibleEvents(rows: seq<Row>, today: string, limit: int): seq<Event> {
    Prefix(EventsOf(rows, today), limit)
  }

  /**
   * `get_events(limit)` returns the first `limit` events, in sheet order, of
   * the rows that are active and not over; each shown event comes from such a row.
   */
  lemma EventsSpec(rows: seq<Row>, today: string, limit: int, e: Event)
    ensures VisibleEvents(rows, today, limit) == EventsOf(rows, today)[..|VisibleEvents(rows, today, limit)|]
    ensures limit >= 0 ==> |VisibleEvents(rows, today, limit)| <= limit
    ensures e in VisibleEvents(rows, today, limit) ==>
      e.active && LexGe(e.dateTo, today) &&
      exists i :: 0 <= i < |rows| && |rows[i]| >= 10 && IsTrueFlag(rows[i][9]) && EventOfRow(rows[i], today) == Some(e)
  {
    var all := EventsOf(rows, today);
    CollectMembers(rows, (row: Row) => EventOfRow(row, today), e);
    if e in VisibleEvents(rows, today, limit) {
      assert e in all;
    }
  }

  /** An event shown on a given day is also shown, all else equal, on every earlier day. */
  lemma EventsShownEarlier(rows: seq<Row>, earlier: string, later: string, e: Event)
    requires LexGe(later, earlier)
    requires e in EventsOf(rows, later)
    ensures e in EventsOf(rows, earlier)
  {
    CollectMembers(rows, (row: Row) => EventOfRow(row, later), e);
    CollectMembers(rows, (row: Row) => EventOfRow(row, earlier), e);
    var i :| 0 <= i < |rows| && EventOfRow(rows[i], later) == Some(e);
    LexGeTransitive(e.dateTo, later, earlier);
  }

  // ================================================================ prices

  /** One row of `prices!A2:H`: kept when it has eight cells, column H is a true flag, and the category matches. */
  function PriceOfRow(row: Row, category: Option<string>): Option<Price> {
    if |row| >= 8 then
      var active := IsTrueFlag(row[7]);
      var priceCategory := row[1];
      if active && (category.None? || priceCategory == category.value) then
        Some(Price(row[0], priceCategory, row[2], row[3], row[4], row[5],
                   if |row| > 6 then Some(row[6]) else None, active))
      else None
    else None
  }

  function PricesOf(rows: seq<Row>, category: Option<string>): seq<Price> {
    Collect(rows, (row: Row) => PriceOfRow(row, category))
  }

  /** The price row an active row of eight or more cells stands for. */
  function PriceRecord(row: Row): Price
    requires |row| >= 8
  {
    Price(row[0], row[1], row[2], row[3], row[4], row[5], Some(row[6]), IsTrueFlag(row[7]))
  }

  /**
   * `get_prices(category)` returns exactly the active rows of eight or more
   * cells, restricted to `category` when one is given; with none, every such row.
   */
  lemma PricesSpec(rows: seq<Row>, category: Option<string>, p: Price)
    ensures p in PricesOf(rows, category) <==>
      exists i :: 0 <= i < |rows| && |rows[i]| >= 8 && IsTrueFlag(rows[i][7]) &&
        (category.None? || rows[i][1] == category.value) && p == PriceRecord(rows[i])
    ensures p in PricesOf(rows, category) ==> p.active && (category.Some? ==> p.category == category.value)
  {
    CollectMembers(rows, (row: Row) => PriceOfRow(row, category), p);
  }

  // ================================================================ the adapter object

  /**
   * Calls to the operations that the handlers use but the adapter does not
   * define; the adapter records them in order.
   */
  datatype Call =
    | DuplicateCheck(phone: Value, date: Value)
    | PhoneLookup(phone: Value)
    | CancelCall(bookingId: string)
    | UpdateCall(bookingId: string, updates: Object)
    | MenuRead(category: Value)
    | OrderCall(bookingId: string, itemName: string, quantity: int, amount: int)

  /** The whole store as values, for the decision functions of the handlers. */
  datatype Snapshot = Snapshot(
    venueRows: seq<Row>, tableRows: seq<Row>, bookingRows: seq<Row>, eventRows: seq<Row>, priceRows: seq<Row>,
    duplicatePairs: set<(Value, Value)>, phoneIndex: map<Value, seq<Booking>>,
    cancellable: set<string>, updatable: set<string>, menus: map<Value, seq<MenuItem>>)

  /** The bookings `find_booking_by_phone(phone)` answers with. */
  function Found(s: Snapshot, phone: Value): seq<Booking> {
    if phone in s.phoneIndex then s.phoneIndex[phone] else []
  }

  /** The items `get_menu(category)` answers with. */
  function MenuFor(s: Snapshot, category: Value): seq<MenuItem> {
    if category in s.menus then s.menus[category] else []
  }

  class SheetsClient {
    // The rows each tab's range returns (header row excluded).
    var venueRows: seq<Row>
    var tableRows: seq<Row>
    var bookingRows: seq<Row>
    var eventRows: seq<Row>
    var priceRows: seq<Row>

    // Answers of the operations the handlers call that the adapter does not
    // define: whatever these hold, and nothing else, is what they return.
    var duplicatePairs: set<(Value, Value)>
    var phoneIndex: map<Value, seq<Booking>>
    var cancellable: set<string>
    var updatable: set<string>
    var menus: map<Value, seq<MenuItem>>
    var log: seq<Call>

    constructor (s: Snapshot)
      ensures Snap() == s && log == []
    {
      venueRows, tableRows, bookingRows, eventRows, priceRows :=
        s.venueRows, s.tableRows, s.bookingRows, s.eventRows, s.priceRows;
      duplicatePairs, phoneIndex, cancellable, updatable, menus :=
        s.duplicatePairs, s.phoneIndex, s.cancellable, s.updatable, s.menus;
      log := [];
    }

    function Snap(): Snapshot
      reads this
    {
      Snapshot(venueRows, tableRows, bookingRows, eventRows, priceRows,
               duplicatePairs, phoneIndex, cancellable, updatable, menus)
    }

    method GetVenueInfo() returns (venue: VenueInfo)
      ensures venue == VenueOf(venueRows)
    {
      var rows := venueRows;
      var d: map<string, string> := map[];
      for i := 0 to |rows|
        invariant d == VenueDict(rows[..i])
      {
        var row := rows[i];
        assert rows[..i + 1][..i] == rows[..i];
        if |row| >= 2 {
          d := d[row[0] := row[1]];
        }
      }
      assert rows[..|rows|] == rows;
      venue := VenueInfo(
        Lookup(d, "name", "QRIM Lounge"), Lookup(d, "city", ""), Lookup(d, "address", ""),
        Lookup(d, "phone", ""), Lookup(d, "timezone", "Europe/Moscow"),
        Lookup(d, "work_sun_thu", ""), Lookup(d, "work_fri_sat", ""));
    }

    method GetTables() returns (tables: seq<Table>)
      requires TableRowsOk(tableRows)
      ensures tables == TablesOf(tableRows)
    {
      var rows := tableRows;
      tables := [];
      for i := 0 to |rows|
        invariant tables == TablesOf(rows[..i])
      {
        var row := rows[i];
        assert rows[..i + 1][..i] == rows[..i];
        if |row| >= 5 {
          var active := IsTrueFlag(row[4]);
          if active {
            tables := tables + [Table(row[0], row[1], ParseInt(row[2]), row[3], active)];
          }
        }
      }
      assert rows[..|rows|] == rows;
    }

    method GetBookings(date: string) returns (bookings: seq<Booking>)
      requires BookingRowsOk(bookingRows, date)
      ensures bookings == BookingsOf(bookingRows, date)
    {
      var rows := bookingRows;
      bookings := [];
      for i := 0 to |rows|
        invariant bookings == BookingsOf(rows[..i], date)
      {
        var row := rows[i];
        assert rows[..i + 1][..i] == rows[..i];
        if |row| >= 10 && row[1] == date {
          bookings := bookings + [Booking(row[0], row[1], row[2], ParseInt(row[3]), row[4], row[5],
                                          row[6], row[7], row[8], row[9])];
        }
      }
      assert rows[..|rows|] == rows;
    }

    /** Appends the booking row; `now` stands for both `datetime.now()` readings. */
    method CreateBooking(data: BookingData, now: Stamp) returns (bookingId: string)
      modifies this`bookingRows
      ensures bookingRows == old(bookingRows) + [BookingRow(data, now)]
      ensures bookingId == BookingRow(data, now)[0] && bookingId[0] == 'B'
    {
      bookingId := BookingId(now);
      var createdAt := DisplayStamp(now);
      var row := [bookingId, data.date, data.time, IntToString(data.guests), data.tableId, data.name, data.phone,
                  data.source.GetOr("telegram"), data.status.GetOr("confirmed"), createdAt];
      bookingRows := bookingRows + [row];
    }

    /** `today` is the date of `now`, the clock reading the source takes. */
    method GetEvents(limit: int, now: Stamp) returns (events: seq<Event>)
      ensures events == VisibleEvents(eventRows, IsoDate(now), limit)
    {
      var today := IsoDate(now);
      var rows := eventRows;
      var all: seq<Event> := [];
      for i := 0 to |rows|
        invariant all == EventsOf(rows[..i], today)
      {
        var row := rows[i];
        assert rows[..i + 1][..i] == rows[..i];
        if |row| >= 10 {
          var active := IsTrueFlag(row[9]);
          var dateTo := row[4];
          if active && LexGe(dateTo, today) {
            all := all + [Event(row[0], row[1], row[2], row[3], row[4], row[5], row[6],
                                if |row| > 7 && row[7] != "" then Some(row[7]) else None,
                                IsTrueFlag(row[8]), active)];
          }
        }
      }
      assert rows[..|rows|] == rows;
      events := Prefix(all, limit);
    }

    method GetPrices(category: Option<string>) returns (prices: seq<Price>)
      ensures prices == PricesOf(priceRows, category)
    {
      var rows := priceRows;
      prices := [];
      for i := 0 to |rows|
        invariant prices == PricesOf(rows[..i], category)
      {
        var row := rows[i];
        assert rows[..i + 1][..i] == rows[..i];
        if |row| >= 8 {
          var active := IsTrueFlag(row[7]);
          var priceCategory := row[1];
          if active && (category.None? || priceCategory == category.value) {
            prices := prices + [Price(row[0], priceCategory, row[2], row[3], row[4], row[5],
                                      if |row| > 6 then Some(row[6]) else None, active)];
          }
        }
      }
      assert rows[..|rows|] == rows;
    }

    // ---- operations the handlers call that the adapter does not define

    method CheckDuplicateBooking(phone: Value, date: Value) returns (duplicate: bool)
      modifies this`log
      ensures duplicate == ((phone, date) in duplicatePairs)
      ensures log == old(log) + [DuplicateCheck(phone, date)]
    {
      duplicate := (phone, date) in duplicatePairs;
      log := log + [DuplicateCheck(phone, date)];
    }

    method FindBookingByPhone(phone: Value) returns (bookings: seq<Booking>)
      modifies this`log
      ensures bookings == Found(Snap(), phone)
      ensures log == old(log) + [PhoneLookup(phone)]
    {
      bookings := if phone in phoneIndex then phoneIndex[phone] else [];
      log := log + [PhoneLookup(phone)];
    }

    method CancelBooking(bookingId: string) returns (ok: bool)
      modifies this`log
      ensures ok == (bookingId in cancellable)
      ensures log == old(log) + [CancelCall(bookingId)]
    {
      ok := bookingId in cancellable;
      log := log + [CancelCall(bookingId)];
    }

    method UpdateBooking(bookingId: string, updates: Object) returns (ok: bool)
      modifies this`log
      ensures ok == (bookingId in updatable)
      ensures log == old(log) + [UpdateCall(bookingId, updates)]
    {
      ok := bookingId in updatable;
      log := log + [UpdateCall(bookingId, updates)];
    }

    method GetMenu(category: Value) returns (items: seq<MenuItem>)
      modifies this`log
      ensures items == MenuFor(Snap(), category)
      ensures log == old(log) + [MenuRead(category)]
    {
      items := if category in menus then menus[category] else [];
      log := log + [MenuRead(category)];
    }

    method CreateOrder(bookingId: string, itemName: string, quantity: int, amount: int)
      modifies this`log
      ensures log == old(log) + [OrderCall(bookingId, itemName, quantity, amount)]
    {
      log := log + [OrderCall(bookingId, itemName, quantity, amount)];
    }
  }
}
