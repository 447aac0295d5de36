# Freight portal core in Dafny

This project models the quote-and-booking core of a freight portal. The core has five parts.

- **Instant quotes on the server.** A request is fanned out over a fixed carrier catalogue: seven sea entries (Maersk, MSC and COSCO each appear twice), or three express carriers for anything else. Each line's price is the quoted total times the carrier's multiplier, rounded to cents, and it is valid for seven days. The request, the `QT-` quote id, the lines and the linked user are stored as one quote document. The plain `createQuote` mutation stores request and response merged by object spread, with a `createdAt` stamp, and adds `userId` only when a user is linked.
- **The client quotes page.** It looks up coordinates for the first known city named in the origin, substring test, London by default. It also covers the status badge, the initial list/create mode, and "convert to booking": the booking request and the shipment upsert, each field with its own fallback.
- **The tracking map.** Markers come from the shipments that carry numeric coordinates. It also covers the focused marker, the map centre, and what the component shows: loading, the "no locations" placeholder, or at most four listed points.
- **The compliance page.** It covers the KYC queue filtered from all documents, the pending count, the "all clean" state and the approval toast.
- **The quote results step.** It builds the rate request for the live rate comparison: cities before the first `", "`, the country by substring precedence, and parcel measures parsed with fixed defaults.

Documents that arrive untyped, such as shipments, KYC documents and stored quote records, are JavaScript values (`Values.Value`). Optional chaining, truthiness and `===` are modelled on them. Money amounts are exact reals, and clocks are millisecond readings passed in as `nat`s, one for each place the code reads the clock.

Modules: `Values` (JS values, records, spread), `Geo` (coordinates and the London default), `Text` (includes, split, substring, lower-casing, number rendering, parseFloat), `Money`, `Quotes` (convex/quotes.ts), `QuoteView` (a stored quote as the pages read it), `ClientQuotes`, `ShipmentMap`, `AdminCompliance`, `QuoteResults`.

Behaviour worth knowing:
- The flat fees `securityFee` and `documentation` are copied unscaled into every line. Only the total, base rate and fuel surcharge are multiplied (convex/quotes.ts:120-123).
- `validUntil` reads the clock once per line inside the map callback, not once per batch (convex/quotes.ts:126). `Quotes.FanOut` takes one reading per line. `Quotes.FanOutSameExpiry` states the common case where all readings agree.
- "Convert to Booking" reads the clock up to five times (src/pages/client/ClientQuotesPage.tsx:149, 156, 165, 178 and 191); the read at line 165 happens only when the booking returns no id. `ClientQuotes.ConvertClock` holds one reading for each, so the delivery date is five days after its own reading, and exactly five days after pickup only when the two readings agree (`ClientQuotes.BookingDates`).
- A quote with no contact at all books as "Guest User". A contact whose name is empty books as "Guest" (src/pages/client/ClientQuotesPage.tsx:130-146).
- With no `focusedId`, the map focuses on the first point whose shipment has no `shipmentId`, since `undefined === undefined` (`ShipmentMap.MissingIdsMatchMissingFocus`).

## Model

| member | source | states |
|---|---|---|
| Values.Truthy | src/components/tracking/ShipmentMap.tsx:50 | JavaScript truthiness, as `if`, `!` and `\|\|` test it: undefined, null, false, 0 and "" are falsy (see `Values.OrElse`) |
| Values.Get | src/components/tracking/ShipmentMap.tsx:49 | optional chaining yields the field of an object that has it and `undefined` for anything else |
| Values.StrictEquals | src/pages/admin/AdminCompliancePage.tsx:16 | `===` implies equal values and holds for equal primitives |
| Values.OrElse | src/pages/client/ClientQuotesPage.tsx:142-145 | `s \|\| d` is `s` when it is a non-empty string and `d` when it is missing or empty |
| Values.Merge | convex/quotes.ts:50-54 | spread has the union of the keys, the right side wins on shared keys and the left keeps the rest |
| Text.Contains | src/components/shipping/QuoteResultsView.tsx:27-29 | `includes`: some position of the string starts the searched text (see `Text.ContainsIffOccurs`) |
| Text.ContainsIffOccurs | src/components/shipping/QuoteResultsView.tsx:27-29 | `includes` holds exactly when some position of the string starts the searched text |
| Text.ContainsInside | src/components/shipping/QuoteResultsView.tsx:27 | text with the searched string placed inside it contains that string |
| Text.BeforeFirst | src/components/shipping/QuoteResultsView.tsx:17 | `split(sep)[0]`: the text before the first occurrence of sep (see `Text.BeforeFirstSpec`) |
| Text.BeforeFirstSpec | src/components/shipping/QuoteResultsView.tsx:17 | `split(sep)[0]` is a sep-free prefix ending at the first occurrence of sep, no earlier position holds sep, and it is the whole string when sep does not occur |
| Text.BeforeFirstOfJoin | src/components/shipping/QuoteResultsView.tsx:24 | a piece without the separator's first character, followed by the separator, is what `split(sep)[0]` returns |
| Text.Take | src/pages/admin/AdminCompliancePage.tsx:19 | `substring(0, n)` is a prefix of length min(n, length) |
| Text.ToLower | src/pages/client/ClientQuotesPage.tsx:34 | lower-casing keeps the length and maps each character |
| Text.ToLowerIdempotent | src/pages/client/ClientQuotesPage.tsx:34 | lower-casing twice equals lower-casing once |
| Text.NatToString | convex/quotes.ts:141 | the decimal rendering is a non-empty digit string without a leading zero |
| Text.DigitsOfNatToString | convex/quotes.ts:141 | reading back the decimal rendering of n gives n |
| Text.PrefixedInjective | convex/quotes.ts:141 | a fixed prefix followed by distinct numbers gives distinct strings |
| Text.DigitPrefix | src/components/shipping/QuoteResultsView.tsx:36 | the longest run of digits at the start of a string, as `parseFloat` reads it |
| Text.DigitPrefixOfDigits | src/components/shipping/QuoteResultsView.tsx:36 | the digit prefix of digits followed by a non-digit is exactly those digits |
| Text.TrimStart | src/components/shipping/QuoteResultsView.tsx:36 | exactly the leading whitespace is dropped: the result is a suffix, everything before it is whitespace, and it does not start with whitespace |
| Text.TrimStartOfNonSpace | src/components/shipping/QuoteResultsView.tsx:36 | a string that does not start with whitespace is unchanged by the leading-whitespace skip |
| Text.ParseDecimalOfNat | src/components/shipping/QuoteResultsView.tsx:36 | the decimal reading of a whole number followed by a unit that starts with neither a digit nor a point is that number |
| Text.ParseFloat | src/components/shipping/QuoteResultsView.tsx:32-36 | `parseFloat` after leading whitespace: an optional sign, digits and an optional fraction, NaN as none |
| Text.ParseFloatOfNat | src/components/shipping/QuoteResultsView.tsx:36 | `parseFloat` of a whole number followed by a unit such as " kg" that starts with no digit, point or exponent letter is that number |
| Text.ParseFloatOfWord | src/components/shipping/QuoteResultsView.tsx:32-36 | in the model's decimal-only `parseFloat`, text whose first non-blank character is a letter reads as NaN |
| Text.NumberOr | src/components/shipping/QuoteResultsView.tsx:32-36 | `parseFloat(s) \|\| d` keeps a non-zero number and falls back on NaN or 0 |
| Money.Round2 | convex/quotes.ts:110 | `Math.round(x * 100) / 100`: floor of 100x + 1/2, divided by 100 (see `Money.Round2Spec`) |
| Money.Round2Spec | convex/quotes.ts:110 | `Math.round(x*100)/100` is a whole number of cents within half a cent of x |
| Money.Round2OfCents | convex/quotes.ts:110 | rounding leaves an amount in whole cents unchanged |
| Money.Round2Monotone | convex/quotes.ts:110 | rounding preserves order |
| Quotes.CarrierTemplates | convex/quotes.ts:92-106 | the sea list for "sea" and the express list otherwise (see `Quotes.CatalogueSelection`) |
| Quotes.TemplateIds | convex/quotes.ts:94-105 | the ids of the catalogue entries, position by position |
| Quotes.CatalogueSelection | convex/quotes.ts:92-106 | seven entries exactly for "sea", with ids MAERSK, MSC, COSCO, HAPAG, MAERSK, MSC, COSCO, and DHL, FEDEX, UPS otherwise; all multipliers are positive |
| Quotes.SeaCatalogue | convex/quotes.ts:93-100 | the sea list has seven entries with ids MAERSK, MSC, COSCO, HAPAG, MAERSK, MSC, COSCO, all with positive multipliers |
| Quotes.ExpressCatalogue | convex/quotes.ts:102-105 | the express list has three entries with ids DHL, FEDEX, UPS, all with positive multipliers |
| Quotes.RateLine | convex/quotes.ts:109-127 | the line the map callback builds for one entry (see `Quotes.RateLineIsLineFor`) |
| Quotes.FanOut | convex/quotes.ts:109-128 | one line per catalogue entry |
| Quotes.RateLineIsLineFor | convex/quotes.ts:110-127 | a line has the carrier's id and name, the service type or "air", the transit time, USD, the rounded scaled total, base and fuel, the unscaled fees and an expiry a week after its clock reading |
| Quotes.FanOutAt | convex/quotes.ts:109-128 | line i is the line built from entry i and reading i |
| Quotes.FanOutLines | convex/quotes.ts:109-128 | every line satisfies the per-line facts for its own entry |
| Quotes.CarrierIds | convex/quotes.ts:112 | the carrier ids of the lines, position by position |
| Quotes.FanOutKeepsCatalogueIds | convex/quotes.ts:109-128 | the lines' carrier ids are the catalogue's ids in order, duplicates included |
| Quotes.FanOutSameExpiry | convex/quotes.ts:126 | with a single clock reading every line expires one week after it |
| Quotes.FanOutAmount | convex/quotes.ts:110 | line i's amount is the total times entry i's multiplier, rounded to cents |
| Quotes.FanOutAmountsClose | convex/quotes.ts:110 | each amount is in cents and within half a cent of total times multiplier |
| Quotes.GenerateRates | convex/quotes.ts:91-128 | the request's catalogue fanned out with the request's service type (see `Quotes.AirRequestRates` and `Quotes.SeaRequestRates`) |
| Quotes.AirRequestRates | convex/quotes.ts:102-110 | an air request gets DHL, FEDEX and UPS at 1.0, 1.12 and 1.05 of the total |
| Quotes.SeaRequestRates | convex/quotes.ts:93-100 | a sea request gets seven lines, Maersk twice at the same price |
| Quotes.RequestFieldsKeys | convex/quotes.ts:8-20 | a request becomes a record with exactly the eleven request keys |
| Quotes.RequestFields | convex/quotes.ts:8-20 | the validated request as the record that `...request` spreads at lines 51 and 143 (see `Quotes.RequestFieldsKeys` and `QuoteView.RequestFieldValues`) |
| Quotes.RatesValue | convex/quotes.ts:24-35 | the stored lines are an array of one object per line |
| Quotes.ResponseFields | convex/quotes.ts:21-36 | a response becomes a record with exactly quoteId, status and quotes |
| Quotes.DecodeBreakdownValue | convex/quotes.ts:32 | a stored price breakdown reads back as the same four amounts |
| Quotes.DecodePriceValue | convex/quotes.ts:29-33 | a stored price reads back as the same amount, currency and breakdown |
| Quotes.DecodeRateValue | convex/quotes.ts:24-35 | a stored line reads back as the same line |
| Quotes.DecodeRatesValue | convex/quotes.ts:24-35 | the stored lines read back as the same lines |
| Quotes.LinkedUserId | convex/quotes.ts:40-48 | there is a linked user exactly when there is an identity whose subject is a known external id, and it is that user's id |
| Quotes.HasLinkedUser | convex/quotes.ts:55 | `if (linkedUserId)`: a linked id that is a non-empty string (see `Quotes.CreateQuoteKeepsFields`) |
| Quotes.QuoteDocument | convex/quotes.ts:50-55 | the document has the request and response keys plus createdAt, the response wins over the request, createdAt is the clock, and userId is set only for a linked user |
| Quotes.QuoteDocumentOf | convex/quotes.ts:50-55 | any records with the request keys and the response keys are stored field for field, and userId is present exactly for a linked user |
| Quotes.CreateQuoteKeepsFields | convex/quotes.ts:50-55 | every request and response field is stored unchanged, and userId is present exactly when a user is linked |
| Quotes.InstantQuoteId | convex/quotes.ts:141 | `QT-` followed by the clock reading in decimal (see `Quotes.InstantQuoteIdInjective` and `Quotes.InstantQuoteRecord`) |
| Quotes.InstantQuoteIdInjective | convex/quotes.ts:141 | quote ids from different milliseconds differ |
| Quotes.DocumentKeysDisjoint | convex/quotes.ts:8-36 | request and response keys are disjoint and leave createdAt and userId free |
| Quotes.InstantQuoteDocument | convex/quotes.ts:142-149 | the document keeps the request fields and sets quoteId, status "success", the lines, userId or null, and createdAt |
| Quotes.InstantDocumentOf | convex/quotes.ts:142-149 | a record with the request keys keeps each of them, and the document adds exactly quoteId, status, quotes, userId and createdAt |
| Quotes.CreateInstantQuote | convex/quotes.ts:79-151 | the handler: the `QT-` id and the document it inserts (see `Quotes.InstantQuoteRecord`) |
| Quotes.InstantQuoteRecord | convex/quotes.ts:79-151 | the handler's result is the `QT-` id and a document holding the request, that id, "success", the generated lines, the linked user or null and the `createdAt` reading |
| QuoteView.ViewOf | src/components/shipping/QuoteResultsView.tsx:17-36 | how the pages read an untyped stored quote: each field missing or of its expected shape, otherwise unreadable (see `QuoteView.ViewOfRequestDocument` and `QuoteView.ViewOfInstantQuote`) |
| QuoteView.DimensionsRead | convex/quotes.ts:71 | stored dimensions read back as the same three strings |
| QuoteView.ContactRead | convex/quotes.ts:76 | a stored contact reads back as the same four strings |
| QuoteView.ViewOfRequestDocument | convex/quotes.ts:142-149 | a document holding a request, an id and lines reads as the view of them |
| QuoteView.RequestFieldValues | convex/quotes.ts:8-20 | the stored request holds the origin, destination, service type, weight, value, dimensions and contact as given |
| QuoteView.InstantDocumentKeeps | convex/quotes.ts:142-149 | a request field other than the five the handler sets is stored as given |
| QuoteView.InstantDocumentFields | convex/quotes.ts:142-149 | the instant document shows the request's origin, destination, service type, weight, value, dimensions and contact, the quote id and the lines |
| QuoteView.ViewOfInstantQuote | convex/quotes.ts:141-151 | the record stored by the instant handler reads back as its request, id and computed lines |
| ClientQuotes.CityCoordinates | src/pages/client/ClientQuotesPage.tsx:33-55 | `getCityCoordinates`: the first table entry whose key the lower-cased input contains, else London (see `ClientQuotes.CityCoordinatesFirstMatch`) |
| ClientQuotes.FirstKeyIn | src/pages/client/ClientQuotesPage.tsx:50-52 | the result is the first table key contained in the city, or none when no key is |
| ClientQuotes.GetCityCoordinates | src/pages/client/ClientQuotesPage.tsx:33-55 | the loop returns the coordinates of the lookup function |
| ClientQuotes.CityCoordinatesFirstMatch | src/pages/client/ClientQuotesPage.tsx:33-55 | the lower-cased input takes the coordinates of the first key it contains, in table order |
| ClientQuotes.CityCoordinatesIgnoresCase | src/pages/client/ClientQuotesPage.tsx:34 | the lookup does not depend on letter case |
| ClientQuotes.CityCoordinatesLondon | src/pages/client/ClientQuotesPage.tsx:36 | a place naming London gets London's coordinates |
| ClientQuotes.CityCoordinatesDefault | src/pages/client/ClientQuotesPage.tsx:33-55 | a missing or empty input defaults to London |
| ClientQuotes.CityCoordinatesNoMatch | src/pages/client/ClientQuotesPage.tsx:50-54 | an input containing no table key, such as "Berlin", gets London |
| ClientQuotes.CityCoordinatesTableOrder | src/pages/client/ClientQuotesPage.tsx:36-39 | the entry used is never later in the table than any entry whose key the input contains, so "New York via London" gets London |
| ClientQuotes.StatusLabel | src/pages/client/ClientQuotesPage.tsx:105 | the badge label (see `ClientQuotes.StatusBadgeRules`) |
| ClientQuotes.StatusStyle | src/pages/client/ClientQuotesPage.tsx:100-106 | the badge style looked up by status with the default fallback (see `ClientQuotes.StatusBadgeRules`) |
| ClientQuotes.StatusBadgeRules | src/pages/client/ClientQuotesPage.tsx:99-106 | "success" shows "Ready" and other statuses show themselves; the green style is exactly for success, yellow exactly for pending, grey otherwise |
| ClientQuotes.InitialViewMode | src/pages/client/ClientQuotesPage.tsx:62-66 | the initial `viewMode` (see `ClientQuotes.InitialViewModeRule`) |
| ClientQuotes.InitialViewModeRule | src/pages/client/ClientQuotesPage.tsx:62-66 | the page opens in create mode exactly when the navigation state's mode or the `mode` parameter is "create" |
| ClientQuotes.BestRate | src/pages/client/ClientQuotesPage.tsx:124-125 | `quote.quotes?.[0]`, none for a missing or empty list (see `ClientQuotes.ConvertGuard`) |
| ClientQuotes.ContactOf | src/pages/client/ClientQuotesPage.tsx:130-135 | the quote's contact, or the Guest User contact when there is none (see `ClientQuotes.CustomerFallbacks`) |
| ClientQuotes.Convert | src/pages/client/ClientQuotesPage.tsx:121-195 | `handleConvert`: the alert without a first rate, else the booking and shipment requests (see `ClientQuotes.ConvertGuard`) |
| ClientQuotes.BookingRequestFor | src/pages/client/ClientQuotesPage.tsx:130-161 | the `createBooking` argument (see `ClientQuotes.CustomerFallbacks` and `ClientQuotes.BookingDates`) |
| ClientQuotes.ShipmentIdFor | src/pages/client/ClientQuotesPage.tsx:165 | the booking id, or `SHP-` and the clock (see `ClientQuotes.GeneratedShipmentIdsDiffer`) |
| ClientQuotes.ShipmentUpsertFor | src/pages/client/ClientQuotesPage.tsx:165-195 | the `upsertShipment` argument (see `ClientQuotes.ShipmentRules`) |
| ClientQuotes.DimensionsText | src/pages/client/ClientQuotesPage.tsx:184 | the dimensions template string (see `ClientQuotes.DimensionsTextRule`) |
| ClientQuotes.ConvertGuard | src/pages/client/ClientQuotesPage.tsx:124-140 | nothing is sent exactly when the quote has no first rate; otherwise the booking carries the quote's id and the first rate's carrier |
| ClientQuotes.CustomerFallbacks | src/pages/client/ClientQuotesPage.tsx:130-146 | no contact gives the Guest User contact; otherwise each field falls back on its own |
| ClientQuotes.BookingDates | src/pages/client/ClientQuotesPage.tsx:147-160 | pickup is at its own reading and delivery five days after its own, hence five days after pickup when the readings agree; both stops have the customer as contact |
| ClientQuotes.ShipmentRules | src/pages/client/ClientQuotesPage.tsx:165-195 | the shipment id is the booking id or `SHP-` and its reading, the tracking number is `TBA-` and that id, delivery is five days after its reading, the carrier is the name or the id, the coordinates are the origin's, the status is pending, and the one event carries its own reading and names the shipment |
| ClientQuotes.GeneratedShipmentIdsDiffer | src/pages/client/ClientQuotesPage.tsx:165 | generated shipment ids from different milliseconds differ |
| ClientQuotes.DimensionsTextRule | src/pages/client/ClientQuotesPage.tsx:184 | for every view the text is the three parts joined by "x", each missing or empty part being empty on its own, and "xx" without dimensions |
| ClientQuotes.FirstGeneratedRate | convex/quotes.ts:92-128 | the first generated line is MAERSK for sea and DHL otherwise |
| ClientQuotes.InstantQuoteConverts | src/pages/client/ClientQuotesPage.tsx:121-140 | every instantly created quote converts, with its `QT-` id and the first catalogue carrier |
| ShipmentMap.PointOf | src/components/tracking/ShipmentMap.tsx:48-59 | a shipment gives a point exactly when its coordinates are truthy with numeric lat and lng, and the point copies id, status, city, country and position |
| ShipmentMap.PointsOf | src/components/tracking/ShipmentMap.tsx:46-61 | there are never more points than shipments |
| ShipmentMap.Points | src/components/tracking/ShipmentMap.tsx:46-61 | `points`, with undefined shipments read as none (see `ShipmentMap.LoadingShipmentsShowPlaceholder`) |
| ShipmentMap.PointsOfAppend | src/components/tracking/ShipmentMap.tsx:46-61 | extraction works piecewise over joined lists, so order is kept |
| ShipmentMap.PointsOfMembers | src/components/tracking/ShipmentMap.tsx:46-61 | a point is listed exactly when some shipment yields it |
| ShipmentMap.PointsOfAllLocated | src/components/tracking/ShipmentMap.tsx:46-61 | when every shipment is located, point i is shipment i's point |
| ShipmentMap.IsFocus | src/components/tracking/ShipmentMap.tsx:64 | `p.shipmentId === focusedId` (see `ShipmentMap.IsFocusOnId` and `ShipmentMap.MissingIdsMatchMissingFocus`) |
| ShipmentMap.FocusIndex | src/components/tracking/ShipmentMap.tsx:64 | the position of the first point whose id is `===` the focus, or none when no point's is |
| ShipmentMap.Focused | src/components/tracking/ShipmentMap.tsx:63-66 | `focused`: the point at `FocusIndex`, or null (see `ShipmentMap.FocusedIsFirstMatch`) |
| ShipmentMap.FocusedIsFirstMatch | src/components/tracking/ShipmentMap.tsx:63-66 | the focused point is the first matching point, and null exactly when none matches |
| ShipmentMap.IsFocusOnId | src/components/tracking/ShipmentMap.tsx:64 | a string focus matches exactly the points with that id |
| ShipmentMap.MissingIdsMatchMissingFocus | src/components/tracking/ShipmentMap.tsx:64 | with an undefined focus exactly the points without an id match, so the first of them is focused |
| ShipmentMap.Centre | src/components/tracking/ShipmentMap.tsx:68-71 | `defaultCenter` (see `ShipmentMap.CentreRule`) |
| ShipmentMap.CentreRule | src/components/tracking/ShipmentMap.tsx:68-71 | the centre is the focused point, else the first point, else London |
| ShipmentMap.View | src/components/tracking/ShipmentMap.tsx:74-114 | what the component renders (see `ShipmentMap.ViewRule`) |
| ShipmentMap.ViewRule | src/components/tracking/ShipmentMap.tsx:74-114 | loading before mount, the placeholder exactly when there are no points, and otherwise a listing of the first min(4, n) points |
| ShipmentMap.LoadingShipmentsShowPlaceholder | src/components/tracking/ShipmentMap.tsx:46-47 | while the shipments are still undefined there are no points, so the mounted map shows the placeholder |
| AdminCompliance.NeedsReview | src/pages/admin/AdminCompliancePage.tsx:16 | the filter's predicate with optional chaining and `===` (see `AdminCompliance.NeedsReviewRule`) |
| AdminCompliance.NeedsReviewRule | src/pages/admin/AdminCompliancePage.tsx:16 | a document needs review exactly when its envelope status is "sent" or its status is "pending_review" |
| AdminCompliance.Queue | src/pages/admin/AdminCompliancePage.tsx:16 | every queued document needs review and the queue is no longer than the documents |
| AdminCompliance.KycQueue | src/pages/admin/AdminCompliancePage.tsx:12-16 | `kyQueue`, with a loading query read as no documents (see `AdminCompliance.AllCleanRule`) |
| AdminCompliance.QueueMembers | src/pages/admin/AdminCompliancePage.tsx:16 | a document is queued exactly when it is one of the documents and needs review |
| AdminCompliance.QueueIsSubsequence | src/pages/admin/AdminCompliancePage.tsx:16 | the queue is an order-preserving subsequence of the documents |
| AdminCompliance.QueueIdempotent | src/pages/admin/AdminCompliancePage.tsx:16 | filtering the queue again changes nothing |
| AdminCompliance.QueueAppend | src/pages/admin/AdminCompliancePage.tsx:16 | the queue of joined lists is the join of their queues |
| AdminCompliance.View | src/pages/admin/AdminCompliancePage.tsx:37 | the pending count is the length of the queue of the loaded documents |
| AdminCompliance.AllCleanRule | src/pages/admin/AdminCompliancePage.tsx:46-50 | "All clean" shows exactly when the count is zero, exactly when no document needs review |
| AdminCompliance.ApprovalMessage | src/pages/admin/AdminCompliancePage.tsx:19 | the approval toast text (see `AdminCompliance.ApprovalMessageRule`) |
| AdminCompliance.ApprovalMessageRule | src/pages/admin/AdminCompliancePage.tsx:19 | the toast names the id's first six characters, or all of a shorter id, between fixed texts |
| AdminCompliance.ApprovalMessageDistinguishes | src/pages/admin/AdminCompliancePage.tsx:19 | ids that differ in their first six characters give different toasts |
| QuoteResults.CityOf | src/components/shipping/QuoteResultsView.tsx:17-24 | `place?.split(', ')[0] \|\| fallback` (see `QuoteResults.CityOfRule`) |
| QuoteResults.CityOfRule | src/components/shipping/QuoteResultsView.tsx:17-24 | the city is the text before the first ", ", or the default when that is empty or the place is missing |
| QuoteResults.CityOfJoin | src/components/shipping/QuoteResultsView.tsx:17-24 | "City, rest" with a comma-free city gives that city, or the default when the city is empty |
| QuoteResults.DestinationCountry | src/components/shipping/QuoteResultsView.tsx:27-29 | the nested `includes` tests (see `QuoteResults.DestinationCountryRule`) |
| QuoteResults.DestinationCountryRule | src/components/shipping/QuoteResultsView.tsx:27-29 | the country is DE, US or CN; US only without DE, CN only without DE and US, and DE otherwise |
| QuoteResults.DestinationCountryPrefersDE | src/components/shipping/QuoteResultsView.tsx:27-29 | a destination naming both US and DE goes to DE |
| QuoteResults.ParsedOr | src/components/shipping/QuoteResultsView.tsx:32-36 | the measure is never 0; it is the parsed number when that is non-zero, and the default for a missing field or one that parses to NaN or 0 |
| QuoteResults.RateRequestFor | src/components/shipping/QuoteResultsView.tsx:14-39 | `rateRequest` (see `QuoteResults.ResultsRule` and `QuoteResults.DefaultParcel`) |
| QuoteResults.Results | src/components/shipping/QuoteResultsView.tsx:11-14 | the loading view without a quote, else the rate comparison (see `QuoteResults.ResultsRule`) |
| QuoteResults.ResultsRule | src/components/shipping/QuoteResultsView.tsx:12-39 | loading exactly without a quote; otherwise fixed streets, zips, empty states, GB origin, cm and kg, and non-zero measures |
| QuoteResults.DefaultParcel | src/components/shipping/QuoteResultsView.tsx:32-36 | missing dimensions and weight give 40 x 30 x 20 cm and 100 kg |
| QuoteResults.WeightWithUnit | src/components/shipping/QuoteResultsView.tsx:36 | a weight such as "1500 kg", whose unit starts with no digit, point or exponent letter, is 1500, and "0 kg" falls back to 100 |

## Left out

- `calculateShippingPrice` and `estimateTransitTime` live in convex/pricing.ts, which is not part of this model. Their results are parameters: `Pricing` and the transit time.
- The database and authentication (`ctx.db`, `ctx.auth`): the identity is an optional subject, and the `users` index is a map from external id to user id. `.unique()` throwing on duplicate users cannot arise in a map. The inserted document is returned, not stored, and the returned `docId` is not modelled.
- Clocks: `Date.now()` and `new Date()` are millisecond readings passed in. `toISOString` formatting is left out, so dates stay numbers.
- Floating point: amounts are exact reals and `Math.round` is floor of x + 1/2, which agrees with it for the non-negative prices here. IEEE rounding error is not modelled.
- Text.ParseFloat: reads only an optional sign, digits and an optional fraction after leading whitespace. Exponents, `Infinity` and hexadecimal forms are not read, and NaN is `None`.
- Text.IsSpace: covers the six ASCII whitespace characters only, not the Unicode spaces `parseFloat` also skips.
- Text.ToLower: lower-cases ASCII letters only.
- Values.StrictEquals: treats every pair of arrays or objects as unequal, because values here carry no identity; `===` holds when both sides are the same reference. No comparison in the model has an object or array on both sides.
- ClientQuotes.StatusStyle: does not model `styles[status]` finding inherited prototype keys such as "constructor".
- The carrier logos in the sea catalogue, `formatCurrency`, and the display of `userId?.substring(0, 8)` on the compliance page are presentation only.
- The shipment simulation, the AI helpers, routing, JSX rendering, the remaining pages and the `listQuotes` query are outside this model.
- The mutations called on conversion (`createBooking`, `upsertShipment`) are not modelled. Their arguments are: `ClientQuotes.Convert` gives the booking request and the shipment upsert, and the booking id is a parameter.
