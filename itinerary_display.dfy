/**
 * The display logic of the itinerary view: which icon an activity gets, which
 * fields of the first real flight and of the first six real hotels are shown
 * (with their placeholders), the AI-suggested flight line, the lodging card and
 * the day-by-day walk over the activities. Markup and styling are not modelled;
 * every panel is a value holding the texts it shows.
 */
module ItineraryDisplay {
  import opened Wrappers
  import opened Text
  import opened JsValues

  // ---------------------------------------------------------------------
  // The itinerary document (trusted: only the fields marked optional may be absent)
  // ---------------------------------------------------------------------

  datatype FlightDetails = FlightDetails(
    airline: string,
    flightNumber: Option<string>,
    departure: string,
    arrival: string,
    estimatedCost: string)

  datatype LodgingDetails = LodgingDetails(hotelName: string, estimatedCost: string)

  /** `kind` is the activity's `type`; the declared values are listed in KnownKinds. */
  datatype Activity = Activity(
    title: string,
    startTime: string,
    endTime: string,
    description: Option<string>,
    kind: string,
    imageQuery: Option<string>,
    lodgingDetails: Option<LodgingDetails>)

  datatype Day = Day(day: int, theme: string, activities: seq<Activity>)

  datatype Itinerary = Itinerary(
    tripTitle: string,
    tripSummary: string,
    flightDetails: FlightDetails,
    days: seq<Day>)

  // ---------------------------------------------------------------------
  // External search results (loosely typed: every nested field may be absent)
  // ---------------------------------------------------------------------

  datatype Price = Price(total: Option<Scalar>, currency: Option<string>)
  datatype Endpoint = Endpoint(iataCode: Option<string>, at: Option<string>)
  datatype Aircraft = Aircraft(code: Option<string>)
  datatype Segment = Segment(
    departure: Option<Endpoint>,
    arrival: Option<Endpoint>,
    duration: Option<string>,
    aircraft: Option<Aircraft>)
  datatype FlightItinerary = FlightItinerary(segments: Option<seq<Segment>>)
  datatype FlightOffer = FlightOffer(
    validatingAirlineCodes: Option<seq<string>>,
    price: Option<Price>,
    itineraries: Option<seq<FlightItinerary>>)

  datatype Address = Address(lines: Option<seq<string>>, cityName: Option<string>)
  datatype Hotel = Hotel(
    name: Option<string>,
    rating: Option<Scalar>,
    address: Option<Address>,
    amenities: Option<seq<string>>)
  datatype HotelOffer = HotelOffer(price: Option<Price>)
  datatype HotelResult = HotelResult(hotel: Option<Hotel>, offers: Option<seq<HotelOffer>>)

  // ---------------------------------------------------------------------
  // What is shown
  // ---------------------------------------------------------------------

  datatype Icon = Plane | Utensils | Home | MapPin | Clock

  /**
   * The real-flight panel. `departureAt` and `arrivalAt` are the raw timestamps
   * handed to the locale time formatter; `duration` is None when nothing is shown.
   */
  datatype FlightPanel = FlightPanel(
    airline: string,
    price: string,
    departure: string,
    departureAt: Option<string>,
    arrival: string,
    arrivalAt: Option<string>,
    duration: Option<string>,
    aircraft: string)

  datatype AmenitySummary = AmenitySummary(shown: seq<string>, more: Option<string>)

  datatype HotelCard = HotelCard(
    name: string,
    rating: string,
    price: string,
    location: Option<string>,
    amenities: Option<AmenitySummary>)

  datatype HotelPanel = HotelPanel(heading: string, cards: seq<HotelCard>)

  datatype AiFlightPanel = AiFlightPanel(
    airline: string,
    estimatedCost: string,
    departure: string,
    arrival: string)

  datatype LodgingCard = LodgingCard(hotelName: string, estimatedCost: string)

  /** `image` holds the query the placeholder image is requested with. */
  datatype ActivityView = ActivityView(
    icon: Icon,
    title: string,
    time: string,
    description: Option<string>,
    lodging: Option<LodgingCard>,
    image: Option<string>)

  datatype DayView = DayView(heading: string, activities: seq<ActivityView>)

  datatype Page = Page(
    title: string,
    summary: string,
    realFlight: Option<FlightPanel>,
    realHotels: Option<HotelPanel>,
    aiFlight: AiFlightPanel,
    days: seq<DayView>)

  function Min(a: int, b: int): int
  {
    if a <= b then a else b
  }

  const KnownKinds: set<string> := {"transfer", "food", "lodging", "activity", "free-time"}
  const MaxHotelCards := 6
  const MaxAmenities := 3

  // ---------------------------------------------------------------------
  // Icons
  // ---------------------------------------------------------------------

  /** Every kind, declared or not, gets an icon; anything undeclared falls back to MapPin. */
  function ActivityIcon(kind: string): (r: Icon)
    ensures r == Plane <==> kind == "transfer"
    ensures r == Utensils <==> kind == "food"
    ensures r == Home <==> kind == "lodging"
    ensures r == Clock <==> kind == "free-time"
    ensures r == MapPin <==> kind == "activity" || kind !in KnownKinds
  {
    if kind == "transfer" then Plane
    else if kind == "food" then Utensils
    else if kind == "lodging" then Home
    else if kind == "activity" then MapPin
    else if kind == "free-time" then Clock
    else MapPin
  }

  // ---------------------------------------------------------------------
  // Real flight
  // ---------------------------------------------------------------------

  /** `flight.itineraries?.[0]?.segments?.[0]` */
  function Outbound(f: FlightOffer): Option<Segment>
  {
    match First(f.itineraries)
    case None => None
    case Some(it) => First(it.segments)
  }

  function PriceTotal(p: Option<Price>): Option<Scalar>
  {
    if p.Some? then p.value.total else None
  }

  function PriceCurrency(p: Option<Price>): Option<string>
  {
    if p.Some? then p.value.currency else None
  }

  function SegmentDeparture(seg: Option<Segment>): Option<Endpoint>
  {
    if seg.Some? then seg.value.departure else None
  }

  function SegmentArrival(seg: Option<Segment>): Option<Endpoint>
  {
    if seg.Some? then seg.value.arrival else None
  }

  function EndpointCode(e: Option<Endpoint>): Option<string>
  {
    if e.Some? then e.value.iataCode else None
  }

  function EndpointAt(e: Option<Endpoint>): Option<string>
  {
    if e.Some? then e.value.at else None
  }

  function AircraftCode(seg: Option<Segment>): Option<string>
  {
    if seg.Some? && seg.value.aircraft.Some? then seg.value.aircraft.value.code else None
  }

  /**
   * The duration as shown: the first "PT" deleted, then the first "H" turned into
   * "h " and then the first "M" into "m". The string is not parsed.
   */
  function FormatDuration(d: string): (r: string)
    ensures |d| - 2 <= |r| <= |d| + 1
  {
    ReplaceFirst(ReplaceFirst(ReplaceFirst(d, "PT", ""), "H", "h "), "M", "m")
  }

  /** A string without the letters 'T', 'H' and 'M' is shown as it is. */
  lemma FormatDurationPassThrough(d: string)
    requires 'T' !in d && 'H' !in d && 'M' !in d
    ensures FormatDuration(d) == d
  {
    AbsentCharNoOccurrence(d, "PT", 1);
    ReplaceFirstAbsent(d, "PT", "");
    ReplaceFirstCharAbsent(d, 'H', "h ");
    ReplaceFirstCharAbsent(d, 'M', "m");
  }

  /** The fields of one flight offer, each with its placeholder. */
  function FlightPanelOf(f: FlightOffer): (r: FlightPanel)
    ensures TruthyStr(First(f.validatingAirlineCodes)) ==> r.airline == f.validatingAirlineCodes.value[0]
    ensures !TruthyStr(First(f.validatingAirlineCodes)) ==> r.airline == "Multiple Airlines"
    ensures TruthyStr(AircraftCode(Outbound(f))) ==> r.aircraft == AircraftCode(Outbound(f)).value
    ensures !TruthyStr(AircraftCode(Outbound(f))) ==> r.aircraft == "N/A"
    ensures r.airline != "" && r.aircraft != ""
    ensures r.price == JsxScalar(PriceTotal(f.price)) + " " + JsxStr(PriceCurrency(f.price))
    ensures r.departure == JsxStr(EndpointCode(SegmentDeparture(Outbound(f))))
    ensures r.departureAt == EndpointAt(SegmentDeparture(Outbound(f)))
    ensures r.arrival == JsxStr(EndpointCode(SegmentArrival(Outbound(f))))
    ensures r.arrivalAt == EndpointAt(SegmentArrival(Outbound(f)))
    ensures Outbound(f).None? ==> r.departure == "" && r.arrival == "" && r.duration.None?
    ensures r.duration.Some? <==> Outbound(f).Some? && Outbound(f).value.duration.Some?
    ensures r.duration.Some? ==> r.duration.value == FormatDuration(Outbound(f).value.duration.value)
  {
    var outbound := Outbound(f);
    FlightPanel(
      OrElse(First(f.validatingAirlineCodes), "Multiple Airlines"),
      JsxScalar(PriceTotal(f.price)) + " " + JsxStr(PriceCurrency(f.price)),
      JsxStr(EndpointCode(SegmentDeparture(outbound))),
      EndpointAt(SegmentDeparture(outbound)),
      JsxStr(EndpointCode(SegmentArrival(outbound))),
      EndpointAt(SegmentArrival(outbound)),
      if outbound.Some? && outbound.value.duration.Some? then Some(FormatDuration(outbound.value.duration.value)) else None,
      OrElse(AircraftCode(outbound), "N/A"))
  }

  /** The real-flight panel: shown iff there is a flight, built from the first one only. */
  function RealFlightPanel(flights: seq<FlightOffer>): (r: Option<FlightPanel>)
    ensures r.Some? <==> |flights| > 0
    ensures r.Some? ==> r.value == FlightPanelOf(flights[0])
  {
    if |flights| == 0 then None else Some(FlightPanelOf(flights[0]))
  }

  // ---------------------------------------------------------------------
  // Real hotels
  // ---------------------------------------------------------------------

  function HotelName(h: HotelResult): (r: string)
    ensures r != ""
    ensures h.hotel.Some? && TruthyStr(h.hotel.value.name) ==> r == h.hotel.value.name.value
    ensures !(h.hotel.Some? && TruthyStr(h.hotel.value.name)) ==> r == "Hotel Name Not Available"
  {
    OrElse(if h.hotel.Some? then h.hotel.value.name else None, "Hotel Name Not Available")
  }

  /** "r/5" when the rating is truthy (so a rating of 0 or "" reads "No rating"). */
  function RatingText(rating: Option<Scalar>): (r: string)
    ensures Truthy(rating) ==> r == ScalarText(rating.value) + "/5"
    ensures !Truthy(rating) ==> r == "No rating"
    ensures r != ""
  {
    if Truthy(rating) then ScalarText(rating.value) + "/5" else "No rating"
  }

  /** `hotel.hotel?.rating` through `RatingText`; a result without a hotel object has no rating. */
  function HotelRating(h: HotelResult): (r: string)
    ensures r != ""
    ensures h.hotel.Some? ==> r == RatingText(h.hotel.value.rating)
    ensures h.hotel.None? ==> r == "No rating"
  {
    RatingText(if h.hotel.Some? then h.hotel.value.rating else None)
  }

  /** `hotel.offers?.[0]?.price` */
  function FirstOfferPrice(h: HotelResult): Option<Price>
  {
    match First(h.offers)
    case None => None
    case Some(o) => o.price
  }

  /**
   * "total currency" from the first offer when its total is truthy, else
   * "Price on request". Written with a template literal, so a missing currency
   * reads "undefined".
   */
  function HotelPrice(h: HotelResult): (r: string)
    ensures r != ""
    ensures Truthy(PriceTotal(FirstOfferPrice(h))) ==>
      r == ScalarText(PriceTotal(FirstOfferPrice(h)).value) + " " + TemplateStr(PriceCurrency(FirstOfferPrice(h)))
    ensures !Truthy(PriceTotal(FirstOfferPrice(h))) ==> r == "Price on request"
  {
    var price := FirstOfferPrice(h);
    if Truthy(PriceTotal(price))
    then ScalarText(PriceTotal(price).value) + " " + TemplateStr(PriceCurrency(price))
    else "Price on request"
  }

  /** "first line, city" when the hotel has an address object; nothing otherwise. */
  function HotelLocation(h: HotelResult): (r: Option<string>)
    ensures r.Some? <==> h.hotel.Some? && h.hotel.value.address.Some?
    ensures r.Some? ==>
      r.value == JsxStr(First(h.hotel.value.address.value.lines)) + ", " + JsxStr(h.hotel.value.address.value.cityName)
  {
    if h.hotel.Some? && h.hotel.value.address.Some? then
      var a := h.hotel.value.address.value;
      Some(JsxStr(First(a.lines)) + ", " + JsxStr(a.cityName))
    else None
  }

  /** The label for the amenities that are not shown. */
  function MoreLabel(hidden: nat): string
  {
    "+" + NatToString(hidden) + " more"
  }

  /** The first three amenities in order, then "+N more" for the rest; nothing for none. */
  function AmenitySummaryOf(amenities: Option<seq<string>>): (r: Option<AmenitySummary>)
    ensures r.Some? <==> amenities.Some? && |amenities.value| > 0
    ensures r.Some? ==> r.value.shown == amenities.value[..Min(MaxAmenities, |amenities.value|)]
    ensures r.Some? ==> (r.value.more.Some? <==> |amenities.value| > MaxAmenities)
    ensures r.Some? && r.value.more.Some? ==> r.value.more.value == MoreLabel(|amenities.value| - MaxAmenities)
  {
    if amenities.Some? && |amenities.value| > 0 then
      var all := amenities.value;
      Some(AmenitySummary(
        all[..Min(MaxAmenities, |all|)],
        if |all| > MaxAmenities then Some(MoreLabel(|all| - MaxAmenities)) else None))
    else None
  }

  /** One hotel card: each field is the per-hotel rule applied to this hotel. */
  function HotelCardOf(h: HotelResult): (r: HotelCard)
    ensures r.name != "" && r.rating != "" && r.price != ""
    ensures r.name == HotelName(h) && r.rating == HotelRating(h) && r.price == HotelPrice(h)
    ensures r.location == HotelLocation(h)
    ensures r.amenities == AmenitySummaryOf(if h.hotel.Some? then h.hotel.value.amenities else None)
  {
    HotelCard(
      HotelName(h),
      HotelRating(h),
      HotelPrice(h),
      HotelLocation(h),
      AmenitySummaryOf(if h.hotel.Some? then h.hotel.value.amenities else None))
  }

  function HotelHeading(found: nat): string
  {
    "Available Hotels (" + NatToString(found) + " found)"
  }

  /**
   * The real-hotel panel: shown iff there is a hotel; the heading counts all of
   * them, the cards are the first six in input order.
   */
  function RealHotelPanel(hotels: seq<HotelResult>): (r: Option<HotelPanel>)
    ensures r.Some? <==> |hotels| > 0
    ensures r.Some? ==> r.value.heading == HotelHeading(|hotels|)
    ensures r.Some? ==> |r.value.cards| == Min(MaxHotelCards, |hotels|)
    ensures r.Some? ==> forall i :: 0 <= i < |r.value.cards| ==> r.value.cards[i] == HotelCardOf(hotels[i])
  {
    if |hotels| == 0 then None
    else
      var shown := hotels[..Min(MaxHotelCards, |hotels|)];
      Some(HotelPanel(HotelHeading(|hotels|), seq(|shown|, i requires 0 <= i < |shown| => HotelCardOf(shown[i]))))
  }

  // ---------------------------------------------------------------------
  // AI-suggested flight, activities and days
  // ---------------------------------------------------------------------

  /** "airline (number)" when the flight number is truthy, "airline " otherwise. */
  function AiFlightAirline(f: FlightDetails): (r: string)
    ensures TruthyStr(f.flightNumber) ==> r == f.airline + " (" + f.flightNumber.value + ")"
    ensures !TruthyStr(f.flightNumber) ==> r == f.airline + " "
  {
    f.airline + " " + (if TruthyStr(f.flightNumber) then "(" + f.flightNumber.value + ")" else "")
  }

  /** The AI-suggested flight: the airline line, and the itinerary's own cost, departure and arrival. */
  function AiFlightPanelOf(f: FlightDetails): (r: AiFlightPanel)
    ensures r.airline == AiFlightAirline(f)
    ensures r.estimatedCost == f.estimatedCost
    ensures r.departure == f.departure && r.arrival == f.arrival
  {
    AiFlightPanel(AiFlightAirline(f), f.estimatedCost, f.departure, f.arrival)
  }

  /** The lodging card: only for a lodging activity that carries lodging details. */
  function LodgingCardOf(a: Activity): (r: Option<LodgingCard>)
    ensures r.Some? <==> a.kind == "lodging" && a.lodgingDetails.Some?
    ensures r.Some? ==> r.value.hotelName == a.lodgingDetails.value.hotelName
    ensures r.Some? ==> r.value.estimatedCost == a.lodgingDetails.value.estimatedCost
  {
    if a.kind == "lodging" && a.lodgingDetails.Some?
    then Some(LodgingCard(a.lodgingDetails.value.hotelName, a.lodgingDetails.value.estimatedCost))
    else None
  }

  function ActivityViewOf(a: Activity): (r: ActivityView)
    ensures r.icon == ActivityIcon(a.kind) && r.title == a.title
    ensures r.time == a.startTime + " - " + a.endTime
    ensures r.description.Some? <==> TruthyStr(a.description)
    ensures r.description.Some? ==> r.description.value == a.description.value
    ensures r.image.Some? <==> TruthyStr(a.imageQuery)
    ensures r.image.Some? ==> r.image.value == a.imageQuery.value
    ensures r.lodging == LodgingCardOf(a)
  {
    ActivityView(
      ActivityIcon(a.kind),
      a.title,
      a.startTime + " - " + a.endTime,
      if TruthyStr(a.description) then a.description else None,
      LodgingCardOf(a),
      if TruthyStr(a.imageQuery) then a.imageQuery else None)
  }

  /** The activities of one day, one view each, in input order. */
  function ActivityViews(activities: seq<Activity>): (r: seq<ActivityView>)
    ensures |r| == |activities|
    ensures forall j :: 0 <= j < |r| ==> r[j] == ActivityViewOf(activities[j])
  {
    if activities == [] then []
    else [ActivityViewOf(activities[0])] + ActivityViews(activities[1..])
  }

  function DayViewOf(d: Day): (r: DayView)
    ensures r.heading == "Day " + IntToString(d.day) + ": " + d.theme
    ensures |r.activities| == |d.activities|
    ensures forall j :: 0 <= j < |r.activities| ==> r.activities[j] == ActivityViewOf(d.activities[j])
  {
    DayView("Day " + IntToString(d.day) + ": " + d.theme, ActivityViews(d.activities))
  }

  /** The days, one view each, in input order. */
  function DayViews(days: seq<Day>): (r: seq<DayView>)
    ensures |r| == |days|
    ensures forall i :: 0 <= i < |r| ==> r[i] == DayViewOf(days[i])
  {
    if days == [] then []
    else [DayViewOf(days[0])] + DayViews(days[1..])
  }

  /** The whole view: header, the two optional real-data panels, the AI flight and the days. */
  function RenderItinerary(it: Itinerary, realFlights: seq<FlightOffer>, realHotels: seq<HotelResult>): (r: Page)
    ensures r.title == it.tripTitle && r.summary == it.tripSummary
    ensures r.realFlight.Some? <==> |realFlights| > 0
    ensures r.realHotels.Some? <==> |realHotels| > 0
    ensures r.realFlight == RealFlightPanel(realFlights)
    ensures r.realHotels == RealHotelPanel(realHotels)
    ensures r.aiFlight == AiFlightPanelOf(it.flightDetails)
    ensures |r.days| == |it.days|
    ensures forall i :: 0 <= i < |r.days| ==> r.days[i].heading == "Day " + IntToString(it.days[i].day) + ": " + it.days[i].theme
    ensures forall i :: 0 <= i < |r.days| ==> |r.days[i].activities| == |it.days[i].activities|
    ensures forall i, j :: 0 <= i < |r.days| && 0 <= j < |r.days[i].activities| ==>
              r.days[i].activities[j] == ActivityViewOf(it.days[i].activities[j])
  {
    Page(
      it.tripTitle,
      it.tripSummary,
      RealFlightPanel(realFlights),
      RealHotelPanel(realHotels),
      AiFlightPanelOf(it.flightDetails),
      DayViews(it.days))
  }
}
