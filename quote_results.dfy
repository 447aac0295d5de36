/** The results step of the quote wizard
    (src/components/shipping/QuoteResultsView.tsx): the rate request it hands
    to the live rate comparison, derived from a stored quote. */
module QuoteResults {
  import opened Values
  import opened Text
  import opened QuoteView

  datatype Address = Address(street1: string, city: string, state: string, zip: string, country: string)

  datatype Parcel = Parcel(length: real, width: real, height: real, distanceUnit: string,
                           weight: real, massUnit: string)

  datatype RateRequest = RateRequest(origin: Address, destination: Address, parcel: Parcel)

  datatype ResultsView = LoadingResults | RateComparison(request: RateRequest)

  /** `place?.split(', ')[0] || fallback`. */
  function CityOf(place: Option<string>, fallback: string): string {
    if place.None? then fallback else OrElse(Some(BeforeFirst(place.value, ", ")), fallback)
  }

  /** The city is the text before the first ", ", or the fallback when that is
      empty or the place is missing. */
  lemma CityOfRule(place: Option<string>, fallback: string)
    ensures place.None? ==> CityOf(place, fallback) == fallback
    ensures place.Some? ==>
      var city := BeforeFirst(place.value, ", ");
      && city <= place.value && !Contains(city, ", ")
      && (forall i :: 0 <= i < |city| ==> !OccursAt(place.value, ", ", i))
      && (Contains(place.value, ", ") ==> ", " <= place.value[|city|..])
      && (!Contains(place.value, ", ") ==> city == place.value)
      && CityOf(place, fallback) == (if city == "" then fallback else city)
  {
    if place.Some? {
      BeforeFirstSpec(place.value, ", ");
    }
  }

  /** A place written "City, rest" with a non-empty city free of commas has
      that city; one that starts with ", " falls back. */
  lemma CityOfJoin(city: string, rest: string, fallback: string)
    requires forall i :: 0 <= i < |city| ==> city[i] != ','
    ensures CityOf(Some(city + ", " + rest), fallback) == if city == "" then fallback else city
  {
    BeforeFirstOfJoin(city, ", ", rest);
  }

  /** The destination's country code: the first of "DE", "US", "CN" that it
      contains, and "DE" otherwise. */
  function DestinationCountry(destination: Option<string>): string {
    if destination.Some? && Contains(destination.value, "DE") then "DE"
    else if destination.Some? && Contains(destination.value, "US") then "US"
    else if destination.Some? && Contains(destination.value, "CN") then "CN"
    else "DE"
  }

  lemma DestinationCountryRule(destination: Option<string>)
    ensures DestinationCountry(destination) in {"DE", "US", "CN"}
    ensures DestinationCountry(destination) == "US" <==>
      destination.Some? && !Contains(destination.value, "DE") && Contains(destination.value, "US")
    ensures DestinationCountry(destination) == "CN" <==>
      destination.Some? && !Contains(destination.value, "DE") && !Contains(destination.value, "US")
      && Contains(destination.value, "CN")
    ensures DestinationCountry(destination) == "DE" <==>
      destination.None? || Contains(destination.value, "DE")
      || (!Contains(destination.value, "US") && !Contains(destination.value, "CN"))
  {
  }

  /** A destination naming both Germany and the United States goes to Germany. */
  lemma DestinationCountryPrefersDE(a: string, b: string, c: string)
    ensures DestinationCountry(Some(a + "US" + b + "DE" + c)) == "DE"
  {
    ContainsInside(a + "US" + b, "DE", c);
  }

  /** `parseFloat(s) || fallback`, with an absent field parsed as NaN. */
  function ParsedOr(s: Option<string>, fallback: real): (r: real)
    requires fallback != 0.0
    ensures r != 0.0
    ensures s.None? ==> r == fallback
    ensures s.Some? && ParseFloat(s.value).Some? && ParseFloat(s.value).value != 0.0 ==> r == ParseFloat(s.value).value
    ensures s.Some? && (ParseFloat(s.value).None? || ParseFloat(s.value).value == 0.0) ==> r == fallback
  {
    if s.None? then fallback else NumberOr(ParseFloat(s.value), fallback)
  }

  function RateRequestFor(q: QuoteView): RateRequest {
    var dims := q.dimensions;
    RateRequest(
      Address("123 Business St", CityOf(q.origin, "London"), "", "SW1A 1AA", "GB"),
      Address("456 Commerce Ave", CityOf(q.destination, "Hamburg"), "", "20095", DestinationCountry(q.destination)),
      Parcel(ParsedOr(if dims.None? then None else dims.value.length, 40.0),
             ParsedOr(if dims.None? then None else dims.value.width, 30.0),
             ParsedOr(if dims.None? then None else dims.value.height, 20.0),
             "cm",
             ParsedOr(q.weight, 100.0),
             "kg"))
  }

  /** Nothing is built without a quote. */
  function Results(quote: Option<QuoteView>): ResultsView {
    if quote.None? then LoadingResults else RateComparison(RateRequestFor(quote.value))
  }

  /** The loading view shows exactly when there is no quote; otherwise the
      request has the fixed streets, zips, origin country and units, and non-zero
      measures. */
  lemma ResultsRule(quote: Option<QuoteView>)
    ensures Results(quote).LoadingResults? <==> quote.None?
    ensures Results(quote).RateComparison? ==>
      var r := Results(quote).request;
      && r.origin == Address("123 Business St", CityOf(quote.value.origin, "London"), "", "SW1A 1AA", "GB")
      && r.destination.street1 == "456 Commerce Ave" && r.destination.state == ""
      && r.destination.zip == "20095"
      && r.destination.city == CityOf(quote.value.destination, "Hamburg")
      && r.destination.country == DestinationCountry(quote.value.destination)
      && r.parcel.distanceUnit == "cm" && r.parcel.massUnit == "kg"
      && r.parcel.length != 0.0 && r.parcel.width != 0.0 && r.parcel.height != 0.0 && r.parcel.weight != 0.0
  {
  }

  /** Missing dimensions and weight give the 40 x 30 x 20 cm, 100 kg parcel. */
  lemma DefaultParcel(q: QuoteView)
    requires q.dimensions.None? && q.weight.None?
    ensures RateRequestFor(q).parcel == Parcel(40.0, 30.0, 20.0, "cm", 100.0, "kg")
  {
  }

  /** A weight written as a whole number with a unit, such as "1500 kg", is that
      number; "0 kg" falls back to 100. */
  lemma WeightWithUnit(q: QuoteView, n: nat, unit: string)
    requires unit == [] || (!IsDigit(unit[0]) && unit[0] != '.' && unit[0] != 'e' && unit[0] != 'E')
    requires q.weight == Some(NatToString(n) + unit)
    ensures RateRequestFor(q).parcel.weight == if n == 0 then 100.0 else n as real
  {
    ParseFloatOfNat(n, unit);
  }
}
