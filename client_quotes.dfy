/** The client's quotes page (src/pages/client/ClientQuotesPage.tsx): the
    city-to-coordinates lookup, the status badge, the initial view mode, and the
    booking and shipment requests that "Convert to Booking" sends. The two
    mutations themselves are not part of this model; their arguments are the
    results here, and the booking id the first one returns is a parameter. */
module ClientQuotes {
  import opened Values
  import opened Geo
  import opened Text
  import opened Quotes
  import opened QuoteView

  // ------------------------------------------------------ city coordinates

  /** The lookup table in declaration order, which is the order it is searched. */
  const CityTable: seq<(string, Coordinates)> := [
    ("london", London),
    ("hamburg", Coordinates(53.5511, 9.9937)),
    ("rotterdam", Coordinates(51.9225, 4.4792)),
    ("new york", Coordinates(40.7128, -74.0060)),
    ("shanghai", Coordinates(31.2304, 121.4737)),
    ("singapore", Coordinates(1.3521, 103.8198)),
    ("tokyo", Coordinates(35.6762, 139.6503)),
    ("los angeles", Coordinates(34.0522, -118.2437)),
    ("dubai", Coordinates(25.2048, 55.2708)),
    ("paris", Coordinates(48.8566, 2.3522)),
    ("frankfurt", Coordinates(50.1109, 8.6821)),
    ("hong kong", Coordinates(22.3193, 114.1694))
  ]

  /** The position of the first table key that occurs in `city`. */
  function FirstKeyIn(city: string, table: seq<(string, Coordinates)>): (r: Option<nat>)
    ensures r.Some? ==> r.value < |table| && Contains(city, table[r.value].0)
    ensures r.Some? ==> forall j :: 0 <= j < r.value ==> !Contains(city, table[j].0)
    ensures r.None? ==> forall j :: 0 <= j < |table| ==> !Contains(city, table[j].0)
  {
    if table == [] then None
    else if Contains(city, table[0].0) then Some(0)
    else match FirstKeyIn(city, table[1..])
         case Some(k) => Some(k + 1)
         case None => None
  }

  /** `getCityCoordinates`: the coordinates of the first key contained in the
      lower-cased input, London when none is. */
  function CityCoordinates(cityOrOrigin: Option<string>): Coordinates {
    var city := ToLower(OrElse(cityOrOrigin, ""));
    match FirstKeyIn(city, CityTable)
    case Some(i) => CityTable[i].1
    case None => London
  }

  /** The lookup loop: scan the table in order and return at the first key the
      lower-cased input contains. */
  method GetCityCoordinates(cityOrOrigin: Option<string>) returns (c: Coordinates)
    ensures c == CityCoordinates(cityOrOrigin)
  {
    var city := ToLower(OrElse(cityOrOrigin, ""));
    var i := 0;
    while i < |CityTable|
      invariant 0 <= i <= |CityTable|
      invariant forall j :: 0 <= j < i ==> !Contains(city, CityTable[j].0)
    {
      if Contains(city, CityTable[i].0) {
        CityCoordinatesFirstMatch(cityOrOrigin, i);
        return CityTable[i].1;
      }
      i := i + 1;
    }
    return London;
  }

  /** The lookup takes the earliest table entry whose key the lower-cased input
      contains. */
  lemma CityCoordinatesFirstMatch(cityOrOrigin: Option<string>, i: nat)
    requires i < |CityTable|
    requires Contains(ToLower(OrElse(cityOrOrigin, "")), CityTable[i].0)
    requires forall j :: 0 <= j < i ==> !Contains(ToLower(OrElse(cityOrOrigin, "")), CityTable[j].0)
    ensures CityCoordinates(cityOrOrigin) == CityTable[i].1
  {
    var k := FirstKeyIn(ToLower(OrElse(cityOrOrigin, "")), CityTable);
    assert k.Some?;
  }

  /** Matching ignores case: an input and its lower-cased form agree. */
  lemma CityCoordinatesIgnoresCase(s: string)
    ensures CityCoordinates(Some(s)) == CityCoordinates(Some(ToLower(s)))
  {
    ToLowerIdempotent(s);
    assert OrElse(Some(ToLower(s)), "") == ToLower(OrElse(Some(s), ""));
  }

  /** An input that contains none of the keys, such as "Berlin", gives London. */
  lemma CityCoordinatesNoMatch(cityOrOrigin: Option<string>)
    requires forall j :: 0 <= j < |CityTable| ==> !Contains(ToLower(OrElse(cityOrOrigin, "")), CityTable[j].0)
    ensures CityCoordinates(cityOrOrigin) == London
  {
  }

  /** Any input that mentions London, in any case, gives London: it is the
      first key. */
  lemma CityCoordinatesLondon(s: string)
    requires Contains(ToLower(s), "london")
    ensures CityCoordinates(Some(s)) == London
  {
    if s != "" {
      assert ToLower(OrElse(Some(s), "")) == ToLower(s);
    }
  }

  /** No input, or the empty one, gives London. */
  lemma CityCoordinatesDefault(cityOrOrigin: Option<string>)
    requires cityOrOrigin.None? || cityOrOrigin.value == ""
    ensures CityCoordinates(cityOrOrigin) == London
  {
    assert ToLower(OrElse(cityOrOrigin, "")) == "";
  }

  /** Table order beats position in the text: the entry used is never later
      in the table than any entry whose key the input contains, so "New York
      via London" gives London, which the table lists first. */
  lemma CityCoordinatesTableOrder(cityOrOrigin: Option<string>, i: nat)
    requires i < |CityTable|
    requires Contains(ToLower(OrElse(cityOrOrigin, "")), CityTable[i].0)
    ensures FirstKeyIn(ToLower(OrElse(cityOrOrigin, "")), CityTable).Some?
    ensures FirstKeyIn(ToLower(OrElse(cityOrOrigin, "")), CityTable).value <= i
  {
  }

  // ---------------------------------------------------------- status badge

  function StatusLabel(status: string): string {
    if status == "success" then "Ready" else status
  }

  const SuccessStyle := "bg-green-100 text-green-800"
  const PendingStyle := "bg-yellow-100 text-yellow-800"
  const DefaultStyle := "bg-gray-100 text-gray-800"

  function StatusStyle(status: string): string {
    if status == "success" then SuccessStyle
    else if status == "pending" then PendingStyle
    else DefaultStyle
  }

  /** "success" is shown as "Ready"; any other status is shown as it is. Only
      "success" and "pending" have their own colours; every other status gets
      the default one. */
  lemma StatusBadgeRules(status: string)
    ensures status == "success" ==> StatusLabel(status) == "Ready"
    ensures status != "success" ==> StatusLabel(status) == status
    ensures StatusStyle(status) == SuccessStyle <==> status == "success"
    ensures StatusStyle(status) == PendingStyle <==> status == "pending"
    ensures status != "success" && status != "pending" ==> StatusStyle(status) == DefaultStyle
  {
  }

  // ----------------------------------------------------------- view mode

  datatype ViewMode = List | Create

  /** The page opens in create mode when the router state or the `mode` query
      parameter asks for it. `state` is the router state and `modeParam` what
      `get('mode')` returns for the query string. */
  function InitialViewMode(state: Value, modeParam: Option<string>): ViewMode {
    if StrictEquals(Get(state, "mode"), Str("create")) || modeParam == Some("create") then Create else List
  }

  lemma InitialViewModeRule(state: Value, modeParam: Option<string>)
    ensures InitialViewMode(state, modeParam) == Create
            <==> Get(state, "mode") == Str("create") || modeParam == Some("create")
    ensures InitialViewMode(state, modeParam) == List
            <==> Get(state, "mode") != Str("create") && modeParam != Some("create")
  {
  }

  // ------------------------------------------------------- convert to booking

  datatype Customer = Customer(name: string, email: string, phone: string, company: string)

  datatype Stop = Stop(address: string, date: nat, timeWindow: string, contactPerson: string, contactPhone: string)

  /** The argument of `createBooking`. */
  datatype BookingRequest = BookingRequest(
    quoteId: Option<string>,
    carrierQuoteId: string,
    customerDetails: Customer,
    pickupDetails: Stop,
    deliveryDetails: Stop,
    specialInstructions: string)

  datatype Location = Location(city: string, state: string, country: string, coordinates: Coordinates)

  datatype ShipmentDetails = ShipmentDetails(weight: string, dimensions: string, origin: string,
                                             destination: string, value: string)

  datatype TrackingEvent = TrackingEvent(timestamp: nat, status: string, location: string, description: string)

  datatype Tracking = Tracking(
    status: string,
    currentLocation: Location,
    estimatedDelivery: nat,
    carrier: string,
    trackingNumber: string,
    service: Option<string>,
    shipmentDetails: ShipmentDetails,
    events: seq<TrackingEvent>)

  /** The argument of `upsertShipment`. */
  datatype ShipmentUpsert = ShipmentUpsert(shipmentId: string, tracking: Tracking)

  /** What "Convert to Booking" does: nothing (an alert) when the quote has no
      rate, otherwise the two requests. */
  datatype Conversion = NoRates | Converted(booking: BookingRequest, shipment: ShipmentUpsert)

  const DayMs: nat := 86400000

  /** The contact used when the quote has none at all. */
  const GuestContact: ContactView :=
    ContactView(Some("Guest User"), Some("guest@example.com"), Some("N/A"), Some("N/A"))

  function BestRate(quote: QuoteView): Option<CarrierRate> {
    if quote.quotes.Some? && |quote.quotes.value| > 0 then Some(quote.quotes.value[0]) else None
  }

  function ContactOf(quote: QuoteView): ContactView {
    if quote.contactInfo.Some? then quote.contactInfo.value else GuestContact
  }

  /** The clock readings `handleConvert` takes, in program order: `new Date()`
      for the pickup, `Date.now()` for the delivery, `Date.now()` for a
      generated shipment id (read only when the booking returned no id),
      `Date.now()` for the estimated delivery and `new Date()` for the event. */
  datatype ConvertClock = ConvertClock(pickup: nat, delivery: nat, shipmentId: nat,
                                       estimatedDelivery: nat, event: nat)

  function BookingRequestFor(quote: QuoteView, best: CarrierRate, pickupNow: nat, deliveryNow: nat): BookingRequest {
    var contact := ContactOf(quote);
    var person := OrElse(contact.name, "Guest");
    var phone := OrElse(contact.phone, "N/A");
    BookingRequest(
      quote.quoteId,
      best.carrierId,
      Customer(person, OrElse(contact.email, "guest@example.com"), phone, OrElse(contact.company, "N/A")),
      Stop(OrElse(quote.origin, "Origin"), pickupNow, "09:00-17:00", person, phone),
      Stop(OrElse(quote.destination, "Destination"), deliveryNow + 5 * DayMs, "09:00-17:00", person, phone),
      "Standard handling")
  }

  /** `bookingId`, or `SHP-` and the clock reading when the booking returned none. */
  function ShipmentIdFor(bookingId: Option<string>, now: nat): string {
    OrElse(bookingId, "SHP-" + NatToString(now))
  }

  /** `length x width x height`, an empty string standing for a missing part. */
  function DimensionsText(d: Option<DimensionsView>): string {
    var length := if d.Some? then OrElse(d.value.length, "") else "";
    var width := if d.Some? then OrElse(d.value.width, "") else "";
    var height := if d.Some? then OrElse(d.value.height, "") else "";
    length + "x" + width + "x" + height
  }

  function ShipmentUpsertFor(quote: QuoteView, best: CarrierRate, bookingId: Option<string>,
                             idNow: nat, deliveryNow: nat, eventNow: nat): ShipmentUpsert {
    var shipmentId := ShipmentIdFor(bookingId, idNow);
    ShipmentUpsert(
      shipmentId,
      Tracking(
        "pending",
        Location(OrElse(quote.origin, "London"), "", "UK", CityCoordinates(quote.origin)),
        deliveryNow + 5 * DayMs,
        OrElse(Some(best.carrierName), best.carrierId),
        "TBA-" + shipmentId,
        if best.serviceType != "" then Some(best.serviceType) else quote.serviceType,
        ShipmentDetails(OrElse(quote.weight, ""), DimensionsText(quote.dimensions),
                        OrElse(quote.origin, ""), OrElse(quote.destination, ""), OrElse(quote.value, "")),
        [TrackingEvent(eventNow, "Shipment created", OrElse(quote.origin, "Origin"),
                       "Booking " + shipmentId + " confirmed with " + best.carrierName)]))
  }

  /** `handleConvert`, with its clock readings and the `bookingId` that
      `createBooking` returned. */
  function Convert(quote: QuoteView, clock: ConvertClock, bookingId: Option<string>): Conversion {
    match BestRate(quote)
    case None => NoRates
    case Some(best) =>
      Converted(BookingRequestFor(quote, best, clock.pickup, clock.delivery),
                ShipmentUpsertFor(quote, best, bookingId, clock.shipmentId, clock.estimatedDelivery, clock.event))
  }

  /** No request is sent exactly when the quote has no first rate; otherwise the
      booking names the quote unchanged and the first rate's carrier. */
  lemma ConvertGuard(quote: QuoteView, clock: ConvertClock, bookingId: Option<string>)
    ensures Convert(quote, clock, bookingId).NoRates?
            <==> quote.quotes.None? || quote.quotes.value == []
    ensures Convert(quote, clock, bookingId).Converted? ==>
      var b := Convert(quote, clock, bookingId).booking;
      b.quoteId == quote.quoteId && b.carrierQuoteId == quote.quotes.value[0].carrierId
  {
  }

  /** Each customer field falls back on its own. A quote without any contact
      uses the guest contact, whose name is "Guest User"; a contact with an
      empty or missing name gives "Guest". */
  lemma CustomerFallbacks(quote: QuoteView, best: CarrierRate, pickupNow: nat, deliveryNow: nat)
    ensures var c := BookingRequestFor(quote, best, pickupNow, deliveryNow).customerDetails;
      && (quote.contactInfo.None? ==>
            c == Customer("Guest User", "guest@example.com", "N/A", "N/A"))
      && (quote.contactInfo.Some? ==>
            var given := quote.contactInfo.value;
            && c.name == OrElse(given.name, "Guest")
            && c.email == OrElse(given.email, "guest@example.com")
            && c.phone == OrElse(given.phone, "N/A")
            && c.company == OrElse(given.company, "N/A"))
  {
  }

  /** Pickup is at its clock reading and delivery five days after its own, so
      exactly five days after pickup when the two readings agree; both stops
      name the customer as contact. */
  lemma BookingDates(quote: QuoteView, best: CarrierRate, pickupNow: nat, deliveryNow: nat)
    ensures var b := BookingRequestFor(quote, best, pickupNow, deliveryNow);
      && b.pickupDetails.date == pickupNow
      && b.deliveryDetails.date == deliveryNow + 5 * 86400000
      && (pickupNow == deliveryNow ==> b.deliveryDetails.date == b.pickupDetails.date + 5 * 86400000)
      && (pickupNow <= deliveryNow ==> b.deliveryDetails.date >= b.pickupDetails.date + 5 * 86400000)
      && b.pickupDetails.contactPerson == b.customerDetails.name
      && b.deliveryDetails.contactPhone == b.customerDetails.phone
  {
  }

  /** The shipment id is the booking id when there is one, else `SHP-` and the
      id reading; the tracking number is `TBA-` and the shipment id; delivery is
      expected five days after its reading; the carrier is the rate's name, or
      its id when the name is empty; the position is the looked-up origin city;
      the one event is stamped with the event reading and names the shipment. */
  lemma ShipmentRules(quote: QuoteView, best: CarrierRate, bookingId: Option<string>,
                      idNow: nat, deliveryNow: nat, eventNow: nat)
    ensures var s := ShipmentUpsertFor(quote, best, bookingId, idNow, deliveryNow, eventNow);
      && (bookingId.Some? && bookingId.value != "" ==> s.shipmentId == bookingId.value)
      && (bookingId.None? || bookingId.value == "" ==> s.shipmentId == "SHP-" + NatToString(idNow))
      && s.tracking.trackingNumber == "TBA-" + s.shipmentId
      && s.tracking.estimatedDelivery == deliveryNow + 5 * 86400000
      && |s.tracking.events| == 1 && s.tracking.events[0].timestamp == eventNow
      && s.tracking.events[0].description == "Booking " + s.shipmentId + " confirmed with " + best.carrierName
      && s.tracking.carrier == (if best.carrierName != "" then best.carrierName else best.carrierId)
      && s.tracking.currentLocation.coordinates == CityCoordinates(quote.origin)
      && s.tracking.status == "pending"
  {
  }

  /** Generated shipment ids from different milliseconds differ. */
  lemma GeneratedShipmentIdsDiffer(a: nat, b: nat)
    requires a != b
    ensures ShipmentIdFor(None, a) != ShipmentIdFor(None, b)
  {
    if ShipmentIdFor(None, a) == ShipmentIdFor(None, b) {
      PrefixedInjective("SHP-", a, b);
    }
  }

  /** The dimensions text joins the three parts with "x", each part falling
      back to the empty string on its own, so with no dimensions at all it is
      "xx". */
  lemma DimensionsTextRule(d: Option<DimensionsView>)
    ensures d.None? ==> DimensionsText(d) == "xx"
    ensures d.Some? ==>
      DimensionsText(d) == OrElse(d.value.length, "") + "x" + OrElse(d.value.width, "") + "x" + OrElse(d.value.height, "")
  {
  }

  /** The first rate line of a request is the first catalogue entry's. */
  lemma FirstGeneratedRate(request: QuoteRequest, pricing: Pricing, transitTime: string, clock: seq<nat>)
    requires |clock| == |CarrierTemplates(request.serviceType)|
    ensures var rates := GenerateRates(request, pricing, transitTime, clock);
      rates != [] && rates[0].carrierId == (if request.serviceType == "sea" then "MAERSK" else "DHL")
  {
    CatalogueSelection(request.serviceType);
    FanOutKeepsCatalogueIds(CarrierTemplates(request.serviceType), pricing, transitTime, request.serviceType, clock);
    var rates := GenerateRates(request, pricing, transitTime, clock);
    assert CarrierIds(rates)[0] == rates[0].carrierId;
  }

  /** Every quote created instantly can be converted: its first rate is the
      first catalogue entry for its service type, and the booking carries the
      `QT-` id the handler returned. */
  lemma InstantQuoteConverts(request: QuoteRequest, pricing: Pricing, transitTime: string, clock: seq<nat>,
                             subject: Option<string>, users: map<string, string>, idTime: nat, createdAt: nat,
                             convertClock: ConvertClock, bookingId: Option<string>)
    requires |clock| == |CarrierTemplates(request.serviceType)|
    ensures var r := CreateInstantQuote(request, pricing, transitTime, clock, subject, users, idTime, createdAt);
      && ViewOf(r.document).Some?
      && var c := Convert(ViewOf(r.document).value, convertClock, bookingId);
      && c.Converted?
      && c.booking.quoteId == Some("QT-" + NatToString(idTime))
      && c.booking.carrierQuoteId == (if request.serviceType == "sea" then "MAERSK" else "DHL")
  {
    var r := CreateInstantQuote(request, pricing, transitTime, clock, subject, users, idTime, createdAt);
    var rates := GenerateRates(request, pricing, transitTime, clock);
    ViewOfInstantQuote(request, pricing, transitTime, clock, subject, users, idTime, createdAt);
    FirstGeneratedRate(request, pricing, transitTime, clock);
    var view := RequestView(request, Some(r.quoteId), Some(rates));
    assert ViewOf(r.document) == Some(view);
    assert BestRate(view) == Some(rates[0]);
  }
}
