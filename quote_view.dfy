/** A stored quote document as the client pages read it: every field may be
    missing, so each is optional. `ViewOf` reads a document into this shape and
    fails only when a field that is present holds the wrong kind of value. */
module QuoteView {
  import opened Values
  import opened Quotes

  datatype ContactView = ContactView(name: Option<string>, email: Option<string>,
                                     phone: Option<string>, company: Option<string>)

  datatype DimensionsView = DimensionsView(length: Option<string>, width: Option<string>, height: Option<string>)

  datatype QuoteView = QuoteView(
    quoteId: Option<string>,
    origin: Option<string>,
    destination: Option<string>,
    serviceType: Option<string>,
    weight: Option<string>,
    value: Option<string>,
    dimensions: Option<DimensionsView>,
    contactInfo: Option<ContactView>,
    quotes: Option<seq<CarrierRate>>)

  /** A field read from a document: `undefined` when it is absent. */
  function Field(doc: Record, key: string): Value {
    if key in doc then doc[key] else Undefined
  }

  predicate IsMissing(v: Value) { v.Undefined? || v.Null? }

  // Each reader gives Some(None) for a missing value, Some(Some(x)) for a
  // value of the expected kind and None for anything else.

  function OptionalString(v: Value): Option<Option<string>> {
    if IsMissing(v) then Some(None) else if v.Str? then Some(Some(v.s)) else None
  }

  function OptionalDimensions(v: Value): Option<Option<DimensionsView>> {
    if IsMissing(v) then Some(None)
    else if v.Obj? then
      var length :- OptionalString(Get(v, "length"));
      var width :- OptionalString(Get(v, "width"));
      var height :- OptionalString(Get(v, "height"));
      Some(Some(DimensionsView(length, width, height)))
    else None
  }

  function OptionalContact(v: Value): Option<Option<ContactView>> {
    if IsMissing(v) then Some(None)
    else if v.Obj? then
      var name :- OptionalString(Get(v, "name"));
      var email :- OptionalString(Get(v, "email"));
      var phone :- OptionalString(Get(v, "phone"));
      var company :- OptionalString(Get(v, "company"));
      Some(Some(ContactView(name, email, phone, company)))
    else None
  }

  function OptionalRates(v: Value): Option<Option<seq<CarrierRate>>> {
    if IsMissing(v) then Some(None)
    else if v.Arr? then
      var rates :- DecodeRates(v.items);
      Some(Some(rates))
    else None
  }

  function ViewOf(doc: Record): Option<QuoteView> {
    var quoteId :- OptionalString(Field(doc, "quoteId"));
    var origin :- OptionalString(Field(doc, "origin"));
    var destination :- OptionalString(Field(doc, "destination"));
    var serviceType :- OptionalString(Field(doc, "serviceType"));
    var weight :- OptionalString(Field(doc, "weight"));
    var value :- OptionalString(Field(doc, "value"));
    var dimensions :- OptionalDimensions(Field(doc, "dimensions"));
    var contactInfo :- OptionalContact(Field(doc, "contactInfo"));
    var quotes :- OptionalRates(Field(doc, "quotes"));
    Some(QuoteView(quoteId, origin, destination, serviceType, weight, value, dimensions, contactInfo, quotes))
  }

  /** The view of the request part of a stored quote. */
  function RequestView(request: QuoteRequest, quoteId: Option<string>, quotes: Option<seq<CarrierRate>>): QuoteView {
    var d := request.dimensions;
    var c := request.contactInfo;
    QuoteView(quoteId, Some(request.origin), Some(request.destination), Some(request.serviceType),
      Some(request.weight), Some(request.value),
      Some(DimensionsView(Some(d.length), Some(d.width), Some(d.height))),
      Some(ContactView(Some(c.name), Some(c.email), Some(c.phone), Some(c.company))),
      quotes)
  }

  lemma DimensionsRead(d: Dimensions)
    ensures OptionalDimensions(DimensionsValue(d)) == Some(Some(DimensionsView(Some(d.length), Some(d.width), Some(d.height))))
  {
  }

  lemma ContactRead(c: ContactInfo)
    ensures OptionalContact(ContactValue(c))
            == Some(Some(ContactView(Some(c.name), Some(c.email), Some(c.phone), Some(c.company))))
  {
  }

  /** A document whose fields hold a request, a quote id and rate lines reads
      as the view of them. */
  lemma ViewOfRequestDocument(doc: Record, request: QuoteRequest, quoteId: string, rates: seq<CarrierRate>)
    requires Field(doc, "quoteId") == Str(quoteId)
    requires Field(doc, "origin") == Str(request.origin)
    requires Field(doc, "destination") == Str(request.destination)
    requires Field(doc, "serviceType") == Str(request.serviceType)
    requires Field(doc, "weight") == Str(request.weight)
    requires Field(doc, "value") == Str(request.value)
    requires Field(doc, "dimensions") == DimensionsValue(request.dimensions)
    requires Field(doc, "contactInfo") == ContactValue(request.contactInfo)
    requires Field(doc, "quotes") == RatesValue(rates)
    ensures ViewOf(doc) == Some(RequestView(request, Some(quoteId), Some(rates)))
  {
    assert OptionalString(Field(doc, "quoteId")) == Some(Some(quoteId));
    assert OptionalString(Field(doc, "origin")) == Some(Some(request.origin));
    assert OptionalString(Field(doc, "destination")) == Some(Some(request.destination));
    assert OptionalString(Field(doc, "serviceType")) == Some(Some(request.serviceType));
    assert OptionalString(Field(doc, "weight")) == Some(Some(request.weight));
    assert OptionalString(Field(doc, "value")) == Some(Some(request.value));
    DimensionsRead(request.dimensions);
    ContactRead(request.contactInfo);
    DecodeRatesValue(rates);
    assert OptionalRates(Field(doc, "quotes")) == Some(Some(rates));
  }

  /** The request fields a quote view reads, as `RequestFields` stores them. */
  lemma RequestFieldValues(r: QuoteRequest)
    ensures var m := RequestFields(r);
      && "origin" in m && m["origin"] == Str(r.origin)
      && "destination" in m && m["destination"] == Str(r.destination)
      && "serviceType" in m && m["serviceType"] == Str(r.serviceType)
      && "weight" in m && m["weight"] == Str(r.weight)
      && "value" in m && m["value"] == Str(r.value)
      && "dimensions" in m && m["dimensions"] == DimensionsValue(r.dimensions)
      && "contactInfo" in m && m["contactInfo"] == ContactValue(r.contactInfo)
  {
  }

  /** A request field that the handler does not set itself is stored as given. */
  lemma InstantDocumentKeeps(request: Record, quoteId: string, rates: seq<CarrierRate>,
                             linkedUserId: Option<string>, createdAt: nat, k: string)
    requires k in request && k !in {"quoteId", "status", "quotes", "userId", "createdAt"}
    ensures Field(InstantQuoteDocument(request, quoteId, rates, linkedUserId, createdAt), k) == request[k]
  {
  }

  /** An instant document built from a record holding the request's fields
      shows the request's fields, the id and the lines. */
  lemma InstantDocumentFields(fields: Record, request: QuoteRequest, quoteId: string, rates: seq<CarrierRate>,
                              linkedUserId: Option<string>, createdAt: nat)
    requires "origin" in fields && fields["origin"] == Str(request.origin)
    requires "destination" in fields && fields["destination"] == Str(request.destination)
    requires "serviceType" in fields && fields["serviceType"] == Str(request.serviceType)
    requires "weight" in fields && fields["weight"] == Str(request.weight)
    requires "value" in fields && fields["value"] == Str(request.value)
    requires "dimensions" in fields && fields["dimensions"] == DimensionsValue(request.dimensions)
    requires "contactInfo" in fields && fields["contactInfo"] == ContactValue(request.contactInfo)
    ensures var doc := InstantQuoteDocument(fields, quoteId, rates, linkedUserId, createdAt);
      && Field(doc, "quoteId") == Str(quoteId)
      && Field(doc, "origin") == Str(request.origin)
      && Field(doc, "destination") == Str(request.destination)
      && Field(doc, "serviceType") == Str(request.serviceType)
      && Field(doc, "weight") == Str(request.weight)
      && Field(doc, "value") == Str(request.value)
      && Field(doc, "dimensions") == DimensionsValue(request.dimensions)
      && Field(doc, "contactInfo") == ContactValue(request.contactInfo)
      && Field(doc, "quotes") == RatesValue(rates)
  {
    InstantDocumentKeeps(fields, quoteId, rates, linkedUserId, createdAt, "origin");
    InstantDocumentKeeps(fields, quoteId, rates, linkedUserId, createdAt, "destination");
    InstantDocumentKeeps(fields, quoteId, rates, linkedUserId, createdAt, "serviceType");
    InstantDocumentKeeps(fields, quoteId, rates, linkedUserId, createdAt, "weight");
    InstantDocumentKeeps(fields, quoteId, rates, linkedUserId, createdAt, "value");
    InstantDocumentKeeps(fields, quoteId, rates, linkedUserId, createdAt, "dimensions");
    InstantDocumentKeeps(fields, quoteId, rates, linkedUserId, createdAt, "contactInfo");
  }

  /** The client reads back what the instant handler stored: the request's
      fields, the `QT-` quote id and the very rate lines that were computed. */
  lemma ViewOfInstantQuote(request: QuoteRequest, pricing: Pricing, transitTime: string, clock: seq<nat>,
                           subject: Option<string>, users: map<string, string>, idTime: nat, createdAt: nat)
    requires |clock| == |CarrierTemplates(request.serviceType)|
    ensures var r := CreateInstantQuote(request, pricing, transitTime, clock, subject, users, idTime, createdAt);
      ViewOf(r.document)
      == Some(RequestView(request, Some(r.quoteId), Some(GenerateRates(request, pricing, transitTime, clock))))
  {
    var r := CreateInstantQuote(request, pricing, transitTime, clock, subject, users, idTime, createdAt);
    var rates := GenerateRates(request, pricing, transitTime, clock);
    RequestFieldValues(request);
    InstantDocumentFields(RequestFields(request), request, r.quoteId, rates, LinkedUserId(subject, users), createdAt);
    ViewOfRequestDocument(r.document, request, r.quoteId, rates);
  }
}
