/**
 * The table-assignment rule of app/services/booking.py: the first active
 * table, in sheet order, that seats the party and has no live booking
 * within two hours of the requested time.
 */
module BookingEngine {
  import opened Wrappers
  import opened Clock
  import opened Schemas
  import opened Sheets

  /** Bookings closer than this, in minutes, to a requested time occupy the table. */
  const BufferMinutes := 120

  /** A booking that counts against the table: for that table, and not cancelled. */
  predicate Relevant(b: Booking, tableId: string) {
    b.tableId == tableId && b.status != "cancelled"
  }

  /** `b` occupies `tableId` at `time`: it counts, both times parse, and they are under two hours apart. */
  predicate Blocks(b: Booking, tableId: string, time: string) {
    Relevant(b, tableId) && ParseClock(b.time).Some? && ParseClock(time).Some? &&
    Distance(ParseClock(b.time).value, ParseClock(time).value) < BufferMinutes
  }

  /** Every time the scan of `tableId` would parse is a valid `%H:%M` time. */
  predicate TimesParse(tableId: string, bookings: seq<Booking>, time: string) {
    ParseClock(time).Some? &&
    forall i :: 0 <= i < |bookings| && Relevant(bookings[i], tableId) ==> ParseClock(bookings[i].time).Some?
  }

  /**
   * The inner loop over the bookings of the date for one table: `Ok(true)`
   * when it finds an occupying booking and stops, `Ok(false)` when it runs
   * out, and `Err(text)` when `strptime` rejects `text` on the way (the
   * booking's time is parsed before the requested one).
   */
  function Scan(tableId: string, bookings: seq<Booking>, time: string): Result<bool, string> {
    if bookings == [] then Ok(false)
    else
      var b := bookings[0];
      if Relevant(b, tableId) then
        match ParseClock(b.time)
        case None => Err(b.time)
        case Some(bookingTime) =>
          match ParseClock(time)
          case None => Err(time)
          case Some(requestTime) =>
            if Distance(bookingTime, requestTime) < BufferMinutes then Ok(true)
            else Scan(tableId, bookings[1..], time)
      else Scan(tableId, bookings[1..], time)
  }

  /**
   * The scan's answer: `Ok(true)` exactly when some booking blocks the
   * table, `Ok(false)` exactly when none does and every time it read parsed,
   * and an error names a string `strptime` rejects, either the requested
   * time or the time of a booking that counts against the table.
   */
  lemma {:induction false} ScanMeaning(tableId: string, bookings: seq<Booking>, time: string)
    ensures Scan(tableId, bookings, time) == Ok(true) ==>
      exists i :: 0 <= i < |bookings| && Blocks(bookings[i], tableId, time)
    ensures Scan(tableId, bookings, time) == Ok(false) ==>
      forall i :: 0 <= i < |bookings| ==> !Blocks(bookings[i], tableId, time)
    ensures Scan(tableId, bookings, time).Err? ==>
      var e := Scan(tableId, bookings, time).error;
      ParseClock(e).None? &&
      (e == time || exists i :: 0 <= i < |bookings| && Relevant(bookings[i], tableId) && bookings[i].time == e)
    ensures TimesParse(tableId, bookings, time) ==>
      Scan(tableId, bookings, time) == Ok(exists i :: 0 <= i < |bookings| && Blocks(bookings[i], tableId, time))
    decreases |bookings|
  {
    if bookings != [] {
      var rest := bookings[1..];
      ScanMeaning(tableId, rest, time);
      forall i | 0 <= i < |rest| ensures rest[i] == bookings[i + 1] { }
      if exists i :: 0 <= i < |bookings| && Blocks(bookings[i], tableId, time) {
        var i :| 0 <= i < |bookings| && Blocks(bookings[i], tableId, time);
        if i > 0 { assert Blocks(rest[i - 1], tableId, time); }
      }
      if TimesParse(tableId, bookings, time) {
        assert TimesParse(tableId, rest, time) by {
          forall i | 0 <= i < |rest| && Relevant(rest[i], tableId) ensures ParseClock(rest[i].time).Some? {
            assert rest[i] == bookings[i + 1];
          }
        }
      }
    }
  }

  /**
   * The outer loop over the tables: the slot for the first table that seats
   * `guests` and whose scan finds it free, or the unavailable slot when
   * there is none.
   */
  function FirstFit(tables: seq<Table>, bookings: seq<Booking>, date: string, time: string, guests: int)
    : (r: Result<BookingSlot, string>)
    ensures r.Ok? ==> r.value.date == date && r.value.time == time && r.value.guests == guests
    ensures r.Ok? ==> (r.value.available <==> r.value.tableId.Some?)
    ensures r.Ok? && r.value.available ==>
      exists k :: 0 <= k < |tables| && tables[k].tableId == r.value.tableId.value && tables[k].capacity >= guests
  {
    if tables == [] then Ok(BookingSlot(date, time, guests, false, None))
    else
      var table := tables[0];
      if table.capacity < guests then FirstFit(tables[1..], bookings, date, time, guests)
      else
        match Scan(table.tableId, bookings, time)
        case Err(e) => Err(e)
        case Ok(occupied) =>
          if !occupied then Ok(BookingSlot(date, time, guests, true, Some(table.tableId)))
          else
            var r := FirstFit(tables[1..], bookings, date, time, guests);
            assert r.Ok? && r.value.available ==> exists k :: 1 <= k < |tables| && tables[k].tableId == r.value.tableId.value && tables[k].capacity >= guests by {
              if r.Ok? && r.value.available {
                var k :| 0 <= k < |tables[1..]| && tables[1..][k].tableId == r.value.tableId.value && tables[1..][k].capacity >= guests;
                assert tables[k + 1] == tables[1..][k];
              }
            }
            r
  }

  /** A table passed over: too small for the party, or occupied by a booking near the time. */
  predicate PassedOver(table: Table, bookings: seq<Booking>, time: string, guests: int) {
    table.capacity < guests || Scan(table.tableId, bookings, time) == Ok(true)
  }

  /** Passing over the head and then `k` tables of the tail is passing over the first `k + 1` tables. */
  lemma PassedOverShift(tables: seq<Table>, bookings: seq<Booking>, time: string, guests: int, k: int)
    requires tables != [] && 0 <= k < |tables|
    requires PassedOver(tables[0], bookings, time, guests)
    requires forall j :: 0 <= j < k ==> PassedOver(tables[1..][j], bookings, time, guests)
    ensures forall j :: 0 <= j < k + 1 ==> PassedOver(tables[j], bookings, time, guests)
  {
    forall j | 0 <= j < k + 1 ensures PassedOver(tables[j], bookings, time, guests) {
      if j > 0 { assert tables[j] == tables[1..][j - 1]; }
    }
  }

  /**
   * First fit: an available slot names a table `k` that seats the party and
   * that the scan finds free, and every earlier table was passed over.
   */
  lemma {:induction false} FirstFitAvailable(tables: seq<Table>, bookings: seq<Booking>, date: string, time: string, guests: int)
    ensures var r := FirstFit(tables, bookings, date, time, guests);
      r.Ok? && r.value.available ==>
        exists k :: 0 <= k < |tables| && r.value.tableId == Some(tables[k].tableId) &&
          tables[k].capacity >= guests && Scan(tables[k].tableId, bookings, time) == Ok(false) &&
          forall j :: 0 <= j < k ==> PassedOver(tables[j], bookings, time, guests)
    decreases |tables|
  {
    if tables != [] {
      var rest := tables[1..];
      var r := FirstFit(tables, bookings, date, time, guests);
      if PassedOver(tables[0], bookings, time, guests) && r.Ok? && r.value.available {
        FirstFitAvailable(rest, bookings, date, time, guests);
        assert r == FirstFit(rest, bookings, date, time, guests);
        var k :| 0 <= k < |rest| && r.value.tableId == Some(rest[k].tableId) &&
          rest[k].capacity >= guests && Scan(rest[k].tableId, bookings, time) == Ok(false) &&
          forall j :: 0 <= j < k ==> PassedOver(rest[j], bookings, time, guests);
        PassedOverShift(tables, bookings, time, guests, k);
        assert tables[k + 1] == rest[k];
      }
    }
  }

  /** An unavailable slot means every table was passed over: too small or occupied. */
  lemma {:induction false} FirstFitUnavailable(tables: seq<Table>, bookings: seq<Booking>, date: string, time: string, guests: int)
    ensures var r := FirstFit(tables, bookings, date, time, guests);
      r.Ok? && !r.value.available ==> forall j :: 0 <= j < |tables| ==> PassedOver(tables[j], bookings, time, guests)
    decreases |tables|
  {
    if tables != [] {
      var rest := tables[1..];
      var r := FirstFit(tables, bookings, date, time, guests);
      if r.Ok? && !r.value.available {
        FirstFitUnavailable(rest, bookings, date, time, guests);
        assert PassedOver(tables[0], bookings, time, guests);
        forall j | 0 <= j < |tables| ensures PassedOver(tables[j], bookings, time, guests) {
          if j > 0 { assert tables[j] == rest[j - 1]; }
        }
      }
    }
  }

  /**
   * An error comes from scanning a table `k` that seats the party, after
   * every earlier table was passed over.
   */
  lemma {:induction false} FirstFitError(tables: seq<Table>, bookings: seq<Booking>, date: string, time: string, guests: int)
    ensures var r := FirstFit(tables, bookings, date, time, guests);
      r.Err? ==>
        exists k :: 0 <= k < |tables| && tables[k].capacity >= guests &&
          Scan(tables[k].tableId, bookings, time) == Err(r.error) &&
          forall j :: 0 <= j < k ==> PassedOver(tables[j], bookings, time, guests)
    decreases |tables|
  {
    if tables != [] {
      var rest := tables[1..];
      var r := FirstFit(tables, bookings, date, time, guests);
      if PassedOver(tables[0], bookings, time, guests) && r.Err? {
        FirstFitError(rest, bookings, date, time, guests);
        assert r == FirstFit(rest, bookings, date, time, guests);
        var k :| 0 <= k < |rest| && rest[k].capacity >= guests &&
          Scan(rest[k].tableId, bookings, time) == Err(r.error) &&
          forall j :: 0 <= j < k ==> PassedOver(rest[j], bookings, time, guests);
        PassedOverShift(tables, bookings, time, guests, k);
        assert tables[k + 1] == rest[k];
      }
    }
  }

  /** When every time involved parses, the check never fails. */
  lemma {:induction false} FirstFitTotal(tables: seq<Table>, bookings: seq<Booking>, date: string, time: string, guests: int)
    requires forall k :: 0 <= k < |tables| ==> TimesParse(tables[k].tableId, bookings, time)
    ensures FirstFit(tables, bookings, date, time, guests).Ok?
    decreases |tables|
  {
    if tables != [] {
      ScanMeaning(tables[0].tableId, bookings, time);
      assert forall k :: 0 <= k < |tables[1..]| ==> tables[1..][k] == tables[k + 1];
      FirstFitTotal(tables[1..], bookings, date, time, guests);
    }
  }

  /**
   * First fit is complete: if the party fits some table that no live
   * booking occupies, and the times parse, a table is offered.
   */
  lemma FirstFitComplete(tables: seq<Table>, bookings: seq<Booking>, date: string, time: string, guests: int, k: int)
    requires forall j :: 0 <= j < |tables| ==> TimesParse(tables[j].tableId, bookings, time)
    requires 0 <= k < |tables| && tables[k].capacity >= guests
    requires forall i :: 0 <= i < |bookings| ==> !Blocks(bookings[i], tables[k].tableId, time)
    ensures FirstFit(tables, bookings, date, time, guests).Ok?
    ensures FirstFit(tables, bookings, date, time, guests).value.available
  {
    FirstFitTotal(tables, bookings, date, time, guests);
    FirstFitUnavailable(tables, bookings, date, time, guests);
    ScanMeaning(tables[k].tableId, bookings, time);
  }

  /** No table seats the party: unavailable, without reading a single booking time. */
  lemma {:induction false} NoTableBigEnough(tables: seq<Table>, bookings: seq<Booking>, date: string, time: string, guests: int)
    requires forall k :: 0 <= k < |tables| ==> tables[k].capacity < guests
    ensures FirstFit(tables, bookings, date, time, guests) == Ok(BookingSlot(date, time, guests, false, None))
    decreases |tables|
  {
    if tables != [] {
      assert forall k :: 0 <= k < |tables[1..]| ==> tables[1..][k] == tables[k + 1];
      NoTableBigEnough(tables[1..], bookings, date, time, guests);
    }
  }

  /** The loops of `check_availability`, with their early exits. */
  method FindTable(tables: seq<Table>, bookings: seq<Booking>, date: string, time: string, guests: int)
    returns (r: Result<BookingSlot, string>)
    ensures r == FirstFit(tables, bookings, date, time, guests)
  {
    for k := 0 to |tables|
      invariant FirstFit(tables, bookings, date, time, guests) == FirstFit(tables[k..], bookings, date, time, guests)
    {
      var table := tables[k];
      assert tables[k..][1..] == tables[k + 1..];
      if table.capacity < guests {
        continue;
      }
      var occupied := false;
      var j := 0;
      while j < |bookings|
        invariant 0 <= j <= |bookings|
        invariant Scan(table.tableId, bookings, time) == Scan(table.tableId, bookings[j..], time)
      {
        var booking := bookings[j];
        assert bookings[j..][1..] == bookings[j + 1..];
        if booking.tableId == table.tableId && booking.status != "cancelled" {
          var bookingTime := ParseClock(booking.time);
          if bookingTime.None? {
            return Err(booking.time);
          }
          var requestTime := ParseClock(time);
          if requestTime.None? {
            return Err(time);
          }
          var diff := Distance(bookingTime.value, requestTime.value);
          if diff < BufferMinutes {
            occupied := true;
            break;
          }
        }
        j := j + 1;
      }
      if !occupied {
        return Ok(BookingSlot(date, time, guests, true, Some(table.tableId)));
      }
    }
    return Ok(BookingSlot(date, time, guests, false, None));
  }

  /** What `check_availability(date, time, guests)` answers on the current sheet. */
  function Availability(s: Snapshot, date: string, time: string, guests: int): Result<BookingSlot, string> {
    FirstFit(TablesOf(s.tableRows), BookingsOf(s.bookingRows, date), date, time, guests)
  }

  /** The `booking_data` that `create_booking(booking, table_id)` passes on. */
  function RequestData(request: BookingRequest, tableId: string): (data: BookingData)
    ensures data.source == Some("telegram") && data.status == Some("confirmed")
  {
    BookingData(request.date, request.time, request.guests, tableId, request.name, request.phone,
                Some("telegram"), Some("confirmed"))
  }

  /**
   * The booking a confirmed request becomes: the request's own fields, the
   * table chosen, source `telegram`, status `confirmed`.
   */
  lemma RequestRecord(request: BookingRequest, tableId: string, now: Stamp)
    ensures var b := RecordOf(RequestData(request, tableId), now);
      b.date == request.date && b.time == request.time && b.guests == request.guests &&
      b.tableId == tableId && b.name == request.name && b.phone == request.phone &&
      b.source == "telegram" && b.status == "confirmed" && b.bookingId == BookingId(now)
  {
  }

  /** Once a request is booked on a table, that booking occupies the table at the requested time. */
  lemma BookedSlotBlocks(request: BookingRequest, tableId: string, now: Stamp)
    requires ParseClock(request.time).Some?
    ensures Blocks(RecordOf(RequestData(request, tableId), now), tableId, request.time)
  {
  }

  /**
   * After a request is booked on a table, no check on that date for a time
   * within two hours of it offers that table again: the new booking occupies it.
   */
  lemma BookedTableNotOfferedAgain(s: Snapshot, request: BookingRequest, tableId: string, now: Stamp, time: string, guests: int)
    requires ParseClock(request.time).Some? && ParseClock(time).Some?
    requires Distance(ParseClock(request.time).value, ParseClock(time).value) < BufferMinutes
    ensures var s2 := s.(bookingRows := s.bookingRows + [BookingRow(RequestData(request, tableId), now)]);
      var r := Availability(s2, request.date, time, guests);
      r.Ok? && r.value.available ==> r.value.tableId != Some(tableId)
  {
    var data := RequestData(request, tableId);
    var s2 := s.(bookingRows := s.bookingRows + [BookingRow(data, now)]);
    CreateThenRead(s.bookingRows, data, now, request.date);
    var tables := TablesOf(s2.tableRows);
    var bookings := BookingsOf(s2.bookingRows, request.date);
    assert bookings == BookingsOf(s.bookingRows, request.date) + [RecordOf(data, now)];
    var r := Availability(s2, request.date, time, guests);
    if r.Ok? && r.value.available && r.value.tableId == Some(tableId) {
      FirstFitAvailable(tables, bookings, request.date, time, guests);
      var k :| 0 <= k < |tables| && r.value.tableId == Some(tables[k].tableId) &&
        tables[k].capacity >= guests && Scan(tables[k].tableId, bookings, time) == Ok(false) &&
        forall j :: 0 <= j < k ==> PassedOver(tables[j], bookings, time, guests);
      ScanMeaning(tables[k].tableId, bookings, time);
      assert Blocks(bookings[|bookings| - 1], tableId, time);
      assert false;
    }
  }

  // ---- worked cases: tables seating 2, 4 and 6, one booking of the four-seat table at 19:00

  function SampleTables(): seq<Table> {
    [Table("T1", "Window", 2, "hall", true), Table("T2", "Sofa", 4, "hall", true), Table("T3", "VIP", 6, "vip", true)]
  }

  function SampleBooking(status: string): Booking {
    Booking("B20250101180000", "2025-01-01", "19:00", 4, "T2", "Ann", "+79990000000", "telegram", status, "2025-01-01 18:00")
  }

  /** Ninety minutes after a live booking is inside the buffer: the party of three moves on to the six-seat table. */
  lemma SampleInsideBuffer()
    ensures FirstFit(SampleTables(), [SampleBooking("confirmed")], "2025-01-01", "20:30", 3)
         == Ok(BookingSlot("2025-01-01", "20:30", 3, true, Some("T3")))
  {
    assert ParseClock("19:00") == Some(1140);
    assert ParseClock("20:30") == Some(1230);
  }

  /** Exactly two hours apart is not under the buffer: the four-seat table is offered. */
  lemma SampleAtBufferEdge()
    ensures FirstFit(SampleTables(), [SampleBooking("confirmed")], "2025-01-01", "21:00", 3)
         == Ok(BookingSlot("2025-01-01", "21:00", 3, true, Some("T2")))
  {
    assert ParseClock("19:00") == Some(1140);
    assert ParseClock("21:00") == Some(1260);
  }

  /** A cancelled booking occupies nothing. */
  lemma SampleCancelledIgnored()
    ensures FirstFit(SampleTables(), [SampleBooking("cancelled")], "2025-01-01", "19:30", 4)
         == Ok(BookingSlot("2025-01-01", "19:30", 4, true, Some("T2")))
  {
  }

  /** A time `strptime` rejects surfaces only once a live booking of a large-enough table is compared with it. */
  lemma SampleBadTime()
    ensures FirstFit(SampleTables(), [SampleBooking("confirmed")], "2025-01-01", "25:00", 2)
         == Ok(BookingSlot("2025-01-01", "25:00", 2, true, Some("T1")))
    ensures FirstFit(SampleTables(), [SampleBooking("confirmed")], "2025-01-01", "25:00", 3) == Err("25:00")
  {
    assert ParseClock("19:00") == Some(1140);
    assert ParseClock("25:00") == None;
  }

  class BookingService {
    const sheets: SheetsClient

    constructor (sheets: SheetsClient)
      ensures this.sheets == sheets
    {
      this.sheets := sheets;
    }

    method CheckAvailability(date: string, time: string, guests: int) returns (r: Result<BookingSlot, string>)
      requires TableRowsOk(sheets.tableRows) && BookingRowsOk(sheets.bookingRows, date)
      ensures r == Availability(sheets.Snap(), date, time, guests)
    {
      var tables := sheets.GetTables();
      var bookings := sheets.GetBookings(date);
      r := FindTable(tables, bookings, date, time, guests);
    }

    method CreateBooking(request: BookingRequest, tableId: string, now: Stamp) returns (bookingId: string)
      modifies sheets`bookingRows
      ensures sheets.bookingRows == old(sheets.bookingRows) + [BookingRow(RequestData(request, tableId), now)]
      ensures bookingId == BookingId(now)
    {
      bookingId := sheets.CreateBooking(RequestData(request, tableId), now);
    }
  }
}
