/** The quote backend (convex/quotes.ts): the carrier catalogue chosen by service
    type, the fan-out of one price breakdown into one rate line per catalogue
    entry, and the documents that `createQuote` and
    `createInstantQuoteAndBooking` hand to storage.

    The price breakdown and the transit-time text come from pricing code that is
    not part of this model; they are parameters here. Each `Date.now()` the
    handlers read is a parameter too, one per read. */
module Quotes {
  import opened Values
  import opened Text
  import opened Money

  // ---------------------------------------------------------------- catalogue

  /** One catalogue entry: a carrier and the factor it applies to the base price. */
  datatype CarrierTemplate = CarrierTemplate(id: string, name: string, multiplier: real)

  /** The sea catalogue, in its literal order. It lists Maersk, MSC and COSCO
      twice; each entry is kept. */
  const SeaCarriers: seq<CarrierTemplate> := [
    CarrierTemplate("MAERSK", "Maersk Line", 1.0),
    CarrierTemplate("MSC", "MSC Mediterranean Shipping", 1.05),
    CarrierTemplate("COSCO", "COSCO Shipping", 0.95),
    CarrierTemplate("HAPAG", "Hapag-Lloyd", 1.02),
    CarrierTemplate("MAERSK", "Maersk Line", 1.0),
    CarrierTemplate("MSC", "MSC Mediterranean Shipping", 1.08),
    CarrierTemplate("COSCO", "COSCO Shipping", 0.95)
  ]

  /** The express catalogue used for every service type other than sea. */
  const ExpressCarriers: seq<CarrierTemplate> := [
    CarrierTemplate("DHL", "DHL Express", 1.0),
    CarrierTemplate("FEDEX", "FedEx Express", 1.12),
    CarrierTemplate("UPS", "UPS Worldwide", 1.05)
  ]

  function CarrierTemplates(serviceType: string): seq<CarrierTemplate> {
    if serviceType == "sea" then SeaCarriers else ExpressCarriers
  }

  function TemplateIds(templates: seq<CarrierTemplate>): (ids: seq<string>)
    ensures |ids| == |templates|
    ensures forall i :: 0 <= i < |templates| ==> ids[i] == templates[i].id
  {
    if templates == [] then [] else [templates[0].id] + TemplateIds(templates[1..])
  }

  /** The seven-entry sea list is chosen exactly for "sea"; every other string,
      the empty one included, gets DHL, FedEx and UPS. No catalogue is empty and
      every multiplier is positive. */
  lemma CatalogueSelection(serviceType: string)
    ensures |CarrierTemplates(serviceType)| == 7 <==> serviceType == "sea"
    ensures serviceType != "sea" ==> TemplateIds(CarrierTemplates(serviceType)) == ["DHL", "FEDEX", "UPS"]
    ensures serviceType == "sea" ==>
      TemplateIds(CarrierTemplates(serviceType)) == ["MAERSK", "MSC", "COSCO", "HAPAG", "MAERSK", "MSC", "COSCO"]
    ensures forall t :: t in CarrierTemplates(serviceType) ==> t.multiplier > 0.0
  {
    if serviceType == "sea" {
      SeaCatalogue();
    } else {
      ExpressCatalogue();
    }
  }

  lemma SeaCatalogue()
    ensures |SeaCarriers| == 7
    ensures TemplateIds(SeaCarriers) == ["MAERSK", "MSC", "COSCO", "HAPAG", "MAERSK", "MSC", "COSCO"]
    ensures forall t :: t in SeaCarriers ==> t.multiplier > 0.0
  {
    var ids := TemplateIds(SeaCarriers);
    assert ids[0] == "MAERSK" && ids[1] == "MSC" && ids[2] == "COSCO" && ids[3] == "HAPAG";
    assert ids[4] == "MAERSK" && ids[5] == "MSC" && ids[6] == "COSCO";
  }

  lemma ExpressCatalogue()
    ensures |ExpressCarriers| == 3
    ensures TemplateIds(ExpressCarriers) == ["DHL", "FEDEX", "UPS"]
    ensures forall t :: t in ExpressCarriers ==> t.multiplier > 0.0
  {
    var ids := TemplateIds(ExpressCarriers);
    assert ids[0] == "DHL" && ids[1] == "FEDEX" && ids[2] == "UPS";
  }

  // ------------------------------------------------------------------ fan-out

  /** The breakdown computed by the pricing code for one request. */
  datatype Pricing = Pricing(baseRate: real, fuelSurcharge: real, securityFee: real, documentation: real, total: real)

  datatype Breakdown = Breakdown(baseRate: real, fuelSurcharge: real, securityFee: real, documentation: real)
  datatype Price = Price(amount: real, currency: string, breakdown: Breakdown)

  /** One carrier's rate line. `validUntil` is a millisecond timestamp. */
  datatype CarrierRate = CarrierRate(
    carrierId: string,
    carrierName: string,
    serviceType: string,
    transitTime: string,
    price: Price,
    validUntil: nat)

  /** Seven days in milliseconds. */
  const WeekMs: nat := 7 * 24 * 60 * 60 * 1000

  /** An amount multiplied by an entry's factor, before rounding. */
  function Scaled(amount: real, t: CarrierTemplate): real {
    amount * t.multiplier
  }

  /** The line for one catalogue entry, read at time `now`. */
  function RateLine(t: CarrierTemplate, pricing: Pricing, transitTime: string, serviceType: string, now: nat): CarrierRate {
    CarrierRate(
      t.id,
      t.name,
      OrElse(Some(serviceType), "air"),
      transitTime,
      Price(
        Round2(Scaled(pricing.total, t)),
        "USD",
        Breakdown(
          Round2(Scaled(pricing.baseRate, t)),
          Round2(Scaled(pricing.fuelSurcharge, t)),
          pricing.securityFee,
          pricing.documentation)),
      now + WeekMs)
  }

  /** `carrierTemplates.map(...)`: one line per entry, in order. The callback
      reads the clock for each line, so `clock[i]` is the reading for entry i. */
  function FanOut(templates: seq<CarrierTemplate>, pricing: Pricing, transitTime: string,
                  serviceType: string, clock: seq<nat>): (lines: seq<CarrierRate>)
    requires |clock| == |templates|
    ensures |lines| == |templates|
  {
    if templates == [] then []
    else [RateLine(templates[0], pricing, transitTime, serviceType, clock[0])]
         + FanOut(templates[1..], pricing, transitTime, serviceType, clock[1..])
  }

  /** What the line for entry `t` read at `now` carries: the same carrier, total
      and the two variable fees scaled by its multiplier and rounded to cents,
      the two flat fees copied whatever the multiplier, dollars, the one transit
      time, the request's service type (or "air" when it is empty), and an
      expiry seven days after `now`. */
  predicate LineFor(r: CarrierRate, t: CarrierTemplate, pricing: Pricing, transitTime: string,
                    serviceType: string, now: nat)
  {
    && r.carrierId == t.id
    && r.carrierName == t.name
    && r.price.amount == Round2(Scaled(pricing.total, t))
    && r.price.breakdown.baseRate == Round2(Scaled(pricing.baseRate, t))
    && r.price.breakdown.fuelSurcharge == Round2(Scaled(pricing.fuelSurcharge, t))
    && r.price.breakdown.securityFee == pricing.securityFee
    && r.price.breakdown.documentation == pricing.documentation
    && r.price.currency == "USD"
    && r.transitTime == transitTime
    && r.serviceType == (if serviceType == "" then "air" else serviceType)
    && r.validUntil == now + WeekMs
  }

  /** The line `RateLine` builds is the line for its entry. */
  lemma RateLineIsLineFor(t: CarrierTemplate, pricing: Pricing, transitTime: string, serviceType: string, now: nat)
    ensures LineFor(RateLine(t, pricing, transitTime, serviceType, now), t, pricing, transitTime, serviceType, now)
  {
  }

  /** Line i is built from entry i and the i-th clock reading. */
  lemma {:induction false} FanOutAt(templates: seq<CarrierTemplate>, pricing: Pricing, transitTime: string,
                                    serviceType: string, clock: seq<nat>, i: nat)
    requires |clock| == |templates| && i < |templates|
    ensures FanOut(templates, pricing, transitTime, serviceType, clock)[i]
            == RateLine(templates[i], pricing, transitTime, serviceType, clock[i])
  {
    if i > 0 {
      FanOutAt(templates[1..], pricing, transitTime, serviceType, clock[1..], i - 1);
    }
  }

  /** Line i is the line for entry i, read at the i-th clock reading. */
  lemma FanOutLines(templates: seq<CarrierTemplate>, pricing: Pricing, transitTime: string,
                    serviceType: string, clock: seq<nat>)
    requires |clock| == |templates|
    ensures forall i :: 0 <= i < |templates| ==>
      LineFor(FanOut(templates, pricing, transitTime, serviceType, clock)[i],
              templates[i], pricing, transitTime, serviceType, clock[i])
  {
    forall i | 0 <= i < |templates|
      ensures LineFor(FanOut(templates, pricing, transitTime, serviceType, clock)[i],
                      templates[i], pricing, transitTime, serviceType, clock[i])
    {
      FanOutAt(templates, pricing, transitTime, serviceType, clock, i);
      RateLineIsLineFor(templates[i], pricing, transitTime, serviceType, clock[i]);
    }
  }

  function CarrierIds(lines: seq<CarrierRate>): (ids: seq<string>)
    ensures |ids| == |lines|
    ensures forall i :: 0 <= i < |lines| ==> ids[i] == lines[i].carrierId
  {
    if lines == [] then [] else [lines[0].carrierId] + CarrierIds(lines[1..])
  }

  /** Nothing is dropped, merged or reordered: the carrier ids of the lines are
      the catalogue's ids, duplicates included. */
  lemma FanOutKeepsCatalogueIds(templates: seq<CarrierTemplate>, pricing: Pricing, transitTime: string,
                                serviceType: string, clock: seq<nat>)
    requires |clock| == |templates|
    ensures CarrierIds(FanOut(templates, pricing, transitTime, serviceType, clock)) == TemplateIds(templates)
  {
    FanOutLines(templates, pricing, transitTime, serviceType, clock);
  }

  /** With one clock reading for the whole batch, every line expires at the
      same instant, seven days later. */
  lemma FanOutSameExpiry(templates: seq<CarrierTemplate>, pricing: Pricing, transitTime: string,
                         serviceType: string, clock: seq<nat>, now: nat)
    requires |clock| == |templates|
    requires forall i :: 0 <= i < |clock| ==> clock[i] == now
    ensures forall r :: r in FanOut(templates, pricing, transitTime, serviceType, clock) ==> r.validUntil == now + WeekMs
  {
    FanOutLines(templates, pricing, transitTime, serviceType, clock);
  }

  /** Line i's amount is the rounded total scaled by entry i's multiplier. */
  lemma FanOutAmount(templates: seq<CarrierTemplate>, pricing: Pricing, transitTime: string,
                     serviceType: string, clock: seq<nat>, i: nat)
    requires |clock| == |templates| && i < |templates|
    ensures FanOut(templates, pricing, transitTime, serviceType, clock)[i].price.amount
            == Round2(Scaled(pricing.total, templates[i]))
  {
    FanOutAt(templates, pricing, transitTime, serviceType, clock, i);
    RateLineIsLineFor(templates[i], pricing, transitTime, serviceType, clock[i]);
  }

  /** Each line's amount is a whole number of cents within half a cent of the
      exact scaled total. */
  lemma FanOutAmountsClose(templates: seq<CarrierTemplate>, pricing: Pricing, transitTime: string,
                           serviceType: string, clock: seq<nat>, i: nat)
    requires |clock| == |templates| && i < |templates|
    ensures var r := FanOut(templates, pricing, transitTime, serviceType, clock)[i];
      && Scaled(pricing.total, templates[i]) - 0.005 < r.price.amount <= Scaled(pricing.total, templates[i]) + 0.005
      && IsCents(r.price.amount)
  {
    FanOutAmount(templates, pricing, transitTime, serviceType, clock, i);
    Round2Spec(Scaled(pricing.total, templates[i]));
  }

  /** The rate lines of `createInstantQuoteAndBooking` for one request. */
  function GenerateRates(request: QuoteRequest, pricing: Pricing, transitTime: string, clock: seq<nat>): seq<CarrierRate>
    requires |clock| == |CarrierTemplates(request.serviceType)|
  {
    FanOut(CarrierTemplates(request.serviceType), pricing, transitTime, request.serviceType, clock)
  }

  /** An air request gets exactly three lines, DHL, FedEx and UPS, with their
      multipliers 1.0, 1.12 and 1.05 applied to the total. */
  lemma AirRequestRates(request: QuoteRequest, pricing: Pricing, transitTime: string, clock: seq<nat>)
    requires request.serviceType == "air" && |clock| == 3
    ensures var rates := GenerateRates(request, pricing, transitTime, clock);
      && |rates| == 3
      && CarrierIds(rates) == ["DHL", "FEDEX", "UPS"]
      && rates[0].price.amount == Round2(pricing.total * 1.0)
      && rates[1].price.amount == Round2(pricing.total * 1.12)
      && rates[2].price.amount == Round2(pricing.total * 1.05)
  {
    FanOutLines(ExpressCarriers, pricing, transitTime, "air", clock);
    FanOutKeepsCatalogueIds(ExpressCarriers, pricing, transitTime, "air", clock);
  }

  /** A sea request gets seven lines, two of them from Maersk, at identical
      prices. */
  lemma SeaRequestRates(request: QuoteRequest, pricing: Pricing, transitTime: string, clock: seq<nat>)
    requires request.serviceType == "sea" && |clock| == 7
    ensures var rates := GenerateRates(request, pricing, transitTime, clock);
      && |rates| == 7
      && rates[0].carrierId == "MAERSK" && rates[4].carrierId == "MAERSK"
      && rates[0].price == rates[4].price
      && rates[0].price.amount == Round2(pricing.total)
  {
    FanOutKeepsCatalogueIds(SeaCarriers, pricing, transitTime, "sea", clock);
    var rates := GenerateRates(request, pricing, transitTime, clock);
    assert CarrierIds(rates)[0] == rates[0].carrierId && CarrierIds(rates)[4] == rates[4].carrierId;
    FanOutAt(SeaCarriers, pricing, transitTime, "sea", clock, 0);
    FanOutAt(SeaCarriers, pricing, transitTime, "sea", clock, 4);
    assert SeaCarriers[0] == SeaCarriers[4];
    assert pricing.total * 1.0 == pricing.total;
  }

  // --------------------------------------------------------- stored documents

  datatype Dimensions = Dimensions(length: string, width: string, height: string)
  datatype ContactInfo = ContactInfo(name: string, email: string, phone: string, company: string)

  /** A quote request as the mutations' argument validators admit it. */
  datatype QuoteRequest = QuoteRequest(
    origin: string,
    destination: string,
    serviceType: string,
    cargoType: string,
    weight: string,
    dimensions: Dimensions,
    value: string,
    incoterms: string,
    urgency: string,
    additionalServices: seq<string>,
    contactInfo: ContactInfo)

  /** The computed quote handed to `createQuote`. */
  datatype QuoteResponse = QuoteResponse(quoteId: string, status: string, quotes: seq<CarrierRate>)

  const RequestKeys: set<string> := {"origin", "destination", "serviceType", "cargoType", "weight",
    "dimensions", "value", "incoterms", "urgency", "additionalServices", "contactInfo"}
  const ResponseKeys: set<string> := {"quoteId", "status", "quotes"}

  function StringsValue(ss: seq<string>): Value {
    Arr(seq(|ss|, i requires 0 <= i < |ss| => Str(ss[i])))
  }

  function DimensionsValue(d: Dimensions): Value {
    Obj(map["length" := Str(d.length), "width" := Str(d.width), "height" := Str(d.height)])
  }

  function ContactValue(c: ContactInfo): Value {
    Obj(map["name" := Str(c.name), "email" := Str(c.email), "phone" := Str(c.phone), "company" := Str(c.company)])
  }

  /** The fields `...request` spreads into a document. */
  function RequestFields(r: QuoteRequest): Record {
    map[
      "origin" := Str(r.origin), "destination" := Str(r.destination),
      "serviceType" := Str(r.serviceType), "cargoType" := Str(r.cargoType),
      "weight" := Str(r.weight), "dimensions" := DimensionsValue(r.dimensions),
      "value" := Str(r.value), "incoterms" := Str(r.incoterms), "urgency" := Str(r.urgency),
      "additionalServices" := StringsValue(r.additionalServices),
      "contactInfo" := ContactValue(r.contactInfo)]
  }

  /** A request spreads exactly the eleven request keys. */
  lemma RequestFieldsKeys(r: QuoteRequest)
    ensures RequestFields(r).Keys == RequestKeys
  {
  }

  function BreakdownValue(b: Breakdown): Value {
    Obj(map["baseRate" := Num(b.baseRate), "fuelSurcharge" := Num(b.fuelSurcharge),
            "securityFee" := Num(b.securityFee), "documentation" := Num(b.documentation)])
  }

  function PriceValue(p: Price): Value {
    Obj(map["amount" := Num(p.amount), "currency" := Str(p.currency), "breakdown" := BreakdownValue(p.breakdown)])
  }

  /** A rate line as it is stored. */
  function RateValue(r: CarrierRate): Value {
    Obj(map[
      "carrierId" := Str(r.carrierId), "carrierName" := Str(r.carrierName),
      "serviceType" := Str(r.serviceType), "transitTime" := Str(r.transitTime),
      "price" := PriceValue(r.price), "validUntil" := Num(r.validUntil as real)])
  }

  function RatesValue(rs: seq<CarrierRate>): (v: Value)
    ensures v.Arr? && |v.items| == |rs|
    ensures forall i :: 0 <= i < |rs| ==> v.items[i] == RateValue(rs[i])
  {
    Arr(seq(|rs|, i requires 0 <= i < |rs| => RateValue(rs[i])))
  }

  /** The fields `...response` spreads into a document. */
  function ResponseFields(r: QuoteResponse): (m: Record)
    ensures m.Keys == ResponseKeys
  {
    map["quoteId" := Str(r.quoteId), "status" := Str(r.status), "quotes" := RatesValue(r.quotes)]
  }

  // Reading stored values back.

  function StrOf(v: Value): Option<string> {
    if v.Str? then Some(v.s) else None
  }

  function NumOf(v: Value): Option<real> {
    if v.Num? then Some(v.n) else None
  }

  function TimestampOf(v: Value): Option<nat> {
    if v.Num? && v.n >= 0.0 && v.n.Floor as real == v.n then Some(v.n.Floor) else None
  }

  function DecodeBreakdown(v: Value): Option<Breakdown> {
    var baseRate :- NumOf(Get(v, "baseRate"));
    var fuelSurcharge :- NumOf(Get(v, "fuelSurcharge"));
    var securityFee :- NumOf(Get(v, "securityFee"));
    var documentation :- NumOf(Get(v, "documentation"));
    Some(Breakdown(baseRate, fuelSurcharge, securityFee, documentation))
  }

  function DecodePrice(v: Value): Option<Price> {
    var amount :- NumOf(Get(v, "amount"));
    var currency :- StrOf(Get(v, "currency"));
    var breakdown :- DecodeBreakdown(Get(v, "breakdown"));
    Some(Price(amount, currency, breakdown))
  }

  /** A stored rate line, or `None` when a field is missing or of the wrong kind. */
  function DecodeRate(v: Value): Option<CarrierRate> {
    var carrierId :- StrOf(Get(v, "carrierId"));
    var carrierName :- StrOf(Get(v, "carrierName"));
    var serviceType :- StrOf(Get(v, "serviceType"));
    var transitTime :- StrOf(Get(v, "transitTime"));
    var price :- DecodePrice(Get(v, "price"));
    var validUntil :- TimestampOf(Get(v, "validUntil"));
    Some(CarrierRate(carrierId, carrierName, serviceType, transitTime, price, validUntil))
  }

  function DecodeRates(vs: seq<Value>): Option<seq<CarrierRate>> {
    if vs == [] then Some([])
    else
      var head :- DecodeRate(vs[0]);
      var tail :- DecodeRates(vs[1..]);
      Some([head] + tail)
  }

  lemma DecodeBreakdownValue(b: Breakdown)
    ensures DecodeBreakdown(BreakdownValue(b)) == Some(b)
  {
  }

  lemma DecodePriceValue(p: Price)
    ensures DecodePrice(PriceValue(p)) == Some(p)
  {
    assert Get(PriceValue(p), "breakdown") == BreakdownValue(p.breakdown);
    DecodeBreakdownValue(p.breakdown);
  }

  /** A stored rate line reads back as the line that was stored. */
  lemma DecodeRateValue(r: CarrierRate)
    ensures DecodeRate(RateValue(r)) == Some(r)
  {
    var v := RateValue(r);
    assert Get(v, "price") == PriceValue(r.price);
    DecodePriceValue(r.price);
    assert (r.validUntil as real).Floor == r.validUntil;
  }

  /** A stored list of rate lines reads back as the list, in order. */
  lemma {:induction false} DecodeRatesValue(rs: seq<CarrierRate>)
    ensures DecodeRates(RatesValue(rs).items) == Some(rs)
  {
    if rs != [] {
      DecodeRateValue(rs[0]);
      assert RatesValue(rs).items[1..] == RatesValue(rs[1..]).items;
      DecodeRatesValue(rs[1..]);
      assert [rs[0]] + rs[1..] == rs;
    }
  }

  // ---------------------------------------------------------- the handlers

  /** The handlers' user link: the id of the user whose external id is the
      signed-in identity's subject, or null. `users` maps external ids to user
      ids and stands for the `byExternalId` index. */
  function LinkedUserId(subject: Option<string>, users: map<string, string>): (r: Option<string>)
    ensures r.Some? <==> subject.Some? && subject.value in users
    ensures r.Some? ==> r.value == users[subject.value]
  {
    if subject.Some? && subject.value in users then Some(users[subject.value]) else None
  }

  predicate HasLinkedUser(linkedUserId: Option<string>) {
    linkedUserId.Some? && Truthy(Str(linkedUserId.value))
  }

  /** The document `createQuote` inserts: `{...request, ...response,
      createdAt}`, then `userId` set only when the linked user id is truthy. A
      later field wins over an earlier one with the same name. */
  function QuoteDocument(request: Record, response: Record, createdAt: nat,
                         linkedUserId: Option<string>): (doc: Record)
    ensures doc.Keys == request.Keys + response.Keys + {"createdAt"}
                        + (if HasLinkedUser(linkedUserId) then {"userId"} else {})
    ensures forall k :: k in response && k != "createdAt" && !(k == "userId" && HasLinkedUser(linkedUserId))
                        ==> doc[k] == response[k]
    ensures forall k :: (k in request && k !in response && k != "createdAt"
                         && !(k == "userId" && HasLinkedUser(linkedUserId))) ==> doc[k] == request[k]
    ensures doc["createdAt"] == Num(createdAt as real)
    ensures HasLinkedUser(linkedUserId) ==> doc["userId"] == Str(linkedUserId.value)
  {
    var base := Merge(Merge(request, response), map["createdAt" := Num(createdAt as real)]);
    if HasLinkedUser(linkedUserId) then base["userId" := Str(linkedUserId.value)] else base
  }

  /** Spreading records with the request keys and the response keys keeps
      every field as given, and adds `userId` exactly for a linked user. */
  lemma QuoteDocumentOf(request: Record, response: Record, createdAt: nat, linkedUserId: Option<string>)
    requires request.Keys == RequestKeys && response.Keys == ResponseKeys
    ensures var doc := QuoteDocument(request, response, createdAt, linkedUserId);
      && (forall k :: k in RequestKeys ==> k in doc && doc[k] == request[k])
      && (forall k :: k in ResponseKeys ==> k in doc && doc[k] == response[k])
      && ("userId" in doc <==> HasLinkedUser(linkedUserId))
  {
    DocumentKeysDisjoint();
    var doc := QuoteDocument(request, response, createdAt, linkedUserId);
    forall k | k in RequestKeys ensures k in doc && doc[k] == request[k] {
      assert k !in response && k != "createdAt" && k != "userId";
    }
    forall k | k in ResponseKeys ensures k in doc && doc[k] == response[k] {
      assert k != "createdAt" && k != "userId";
    }
  }

  /** For validated arguments nothing collides: the stored quote keeps every
      request field and every response field as given, and has a `userId`
      exactly when a user was linked. */
  lemma CreateQuoteKeepsFields(request: QuoteRequest, response: QuoteResponse, createdAt: nat,
                               linkedUserId: Option<string>)
    ensures var doc := QuoteDocument(RequestFields(request), ResponseFields(response), createdAt, linkedUserId);
      && (forall k :: k in RequestKeys ==> k in doc && doc[k] == RequestFields(request)[k])
      && (forall k :: k in ResponseKeys ==> k in doc && doc[k] == ResponseFields(response)[k])
      && ("userId" in doc <==> HasLinkedUser(linkedUserId))
  {
    RequestFieldsKeys(request);
    QuoteDocumentOf(RequestFields(request), ResponseFields(response), createdAt, linkedUserId);
  }

  /** `QT-` followed by the clock reading in decimal. */
  function InstantQuoteId(now: nat): string {
    "QT-" + NatToString(now)
  }

  /** Quote ids taken at different milliseconds differ. */
  lemma InstantQuoteIdInjective(a: nat, b: nat)
    requires InstantQuoteId(a) == InstantQuoteId(b)
    ensures a == b
  {
    PrefixedInjective("QT-", a, b);
  }

  /** No key the handlers add collides with a request or response field. */
  lemma DocumentKeysDisjoint()
    ensures RequestKeys !! ResponseKeys
    ensures "createdAt" !in RequestKeys && "createdAt" !in ResponseKeys
    ensures "userId" !in RequestKeys && "userId" !in ResponseKeys
  {
  }

  /** The document `createInstantQuoteAndBooking` inserts: the request's
      fields, then the quote id, status "success", the rate lines, a `userId`
      that is always present (the linked user's id, or null) and `createdAt`. */
  function InstantQuoteDocument(request: Record, quoteId: string, quotes: seq<CarrierRate>,
                                linkedUserId: Option<string>, createdAt: nat): (doc: Record)
    ensures doc.Keys == request.Keys + {"quoteId", "status", "quotes", "userId", "createdAt"}
    ensures forall k :: (k in request && k !in {"quoteId", "status", "quotes", "userId", "createdAt"})
                        ==> doc[k] == request[k]
    ensures doc["quoteId"] == Str(quoteId)
    ensures doc["status"] == Str("success")
    ensures doc["quotes"] == RatesValue(quotes)
    ensures doc["userId"] == if linkedUserId.Some? then Str(linkedUserId.value) else Null
    ensures doc["createdAt"] == Num(createdAt as real)
  {
    Merge(request, map[
      "quoteId" := Str(quoteId),
      "status" := Str("success"),
      "quotes" := RatesValue(quotes),
      "userId" := (if linkedUserId.Some? then Str(linkedUserId.value) else Null),
      "createdAt" := Num(createdAt as real)])
  }

  /** The instant handler's result: the quote id it returns and the document it
      inserts. */
  datatype InstantQuote = InstantQuote(quoteId: string, document: Record)

  /** `createInstantQuoteAndBooking` on a validated request. `clock` holds the
      readings taken while the lines were built, `idTime` the one for the quote
      id and `createdAt` the last one; `subject` is the signed-in identity, if
      any, and `users` the user index. */
  function CreateInstantQuote(request: QuoteRequest, pricing: Pricing, transitTime: string, clock: seq<nat>,
                              subject: Option<string>, users: map<string, string>,
                              idTime: nat, createdAt: nat): (r: InstantQuote)
    requires |clock| == |CarrierTemplates(request.serviceType)|
  {
    var quoteId := InstantQuoteId(idTime);
    InstantQuote(quoteId, InstantQuoteDocument(RequestFields(request), quoteId,
      GenerateRates(request, pricing, transitTime, clock), LinkedUserId(subject, users), createdAt))
  }

  /** A record with the request keys keeps each of them in the instant
      document, which adds exactly the five keys of its own. */
  lemma InstantDocumentOf(request: Record, quoteId: string, quotes: seq<CarrierRate>,
                          linkedUserId: Option<string>, createdAt: nat)
    requires request.Keys == RequestKeys
    ensures var doc := InstantQuoteDocument(request, quoteId, quotes, linkedUserId, createdAt);
      && doc.Keys == RequestKeys + {"quoteId", "status", "quotes", "userId", "createdAt"}
      && (forall k :: k in RequestKeys ==> doc[k] == request[k])
  {
    DocumentKeysDisjoint();
  }

  /** The instant quote returns `QT-` and the id clock reading, stores it with
      status "success" and the request's catalogue lines, keeps every request
      field, and always carries `userId`: the linked user or null. */
  lemma InstantQuoteRecord(request: QuoteRequest, pricing: Pricing, transitTime: string, clock: seq<nat>,
                           subject: Option<string>, users: map<string, string>, idTime: nat, createdAt: nat)
    requires |clock| == |CarrierTemplates(request.serviceType)|
    ensures var r := CreateInstantQuote(request, pricing, transitTime, clock, subject, users, idTime, createdAt);
      && r.quoteId == "QT-" + NatToString(idTime)
      && r.document.Keys == RequestKeys + {"quoteId", "status", "quotes", "userId", "createdAt"}
      && (forall k :: k in RequestKeys ==> r.document[k] == RequestFields(request)[k])
      && r.document["quoteId"] == Str(r.quoteId)
      && r.document["status"] == Str("success")
      && r.document["quotes"] == RatesValue(GenerateRates(request, pricing, transitTime, clock))
      && r.document["createdAt"] == Num(createdAt as real)
      && (subject.Some? && subject.value in users ==> r.document["userId"] == Str(users[subject.value]))
      && (!(subject.Some? && subject.value in users) ==> r.document["userId"] == Null)
  {
    RequestFieldsKeys(request);
    InstantDocumentOf(RequestFields(request), InstantQuoteId(idTime), GenerateRates(request, pricing, transitTime, clock),
                      LinkedUserId(subject, users), createdAt);
  }
}
