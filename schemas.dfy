/** The record shapes of app/models/schemas.py. Field names follow the source, in Dafny's casing. */
module Schemas {
  import opened Wrappers
  import opened Json

  datatype Table = Table(tableId: string, name: string, capacity: int, zone: string, active: bool)

  datatype Booking = Booking(
    bookingId: string, date: string, time: string, guests: int, tableId: string,
    name: string, phone: string, source: string, status: string, createdAt: string)

  /** The availability engine's answer; `tableId` is set exactly when `available`. */
  datatype BookingSlot = BookingSlot(date: string, time: string, guests: int, available: bool, tableId: Option<string>)

  datatype BookingRequest = BookingRequest(date: string, time: string, guests: int, name: string, phone: string)

  datatype VenueInfo = VenueInfo(
    name: string, city: string, address: string, phone: string, timezone: string,
    workSunThu: string, workFriSat: string)

  datatype Event = Event(
    eventId: string, title: string, description: string, dateFrom: string, dateTo: string,
    timeFrom: string, timeTo: string, imageUrl: Option<string>, bookingCta: bool, active: bool)

  datatype Price = Price(
    priceId: string, category: string, name: string, description: string, price: string,
    unit: string, minQty: Option<string>, active: bool)

  datatype MenuItem = MenuItem(category: string, name: string, description: Option<string>, price: int, unit: string, active: bool)

  /** What the classifier returns: an intent name, extracted slots and a reply text. */
  datatype AIIntent = AIIntent(intent: string, slots: Object, responseText: string)
}
