# Travel itinerary view: display rules and loading sequencer, in Dafny

This project models the display logic of a travel-planning web page. It does not model the markup.

- **The itinerary view** (`src/app/components/ItineraryDisplay.tsx`) takes three inputs: an
  AI-generated itinerary and two optional lists of live search results, real flights and
  real hotels. It decides:
  - which icon each activity gets;
  - whether the real-flight and real-hotel panels appear, and which fields they show;
  - the placeholder text for each missing field ("Multiple Airlines", "N/A",
    "Hotel Name Not Available", "No rating", "Price on request");
  - how an ISO 8601 flight duration is reworded;
  - how many hotels and amenities are listed;
  - when the lodging card and the flight number appear;
  - the order in which days and activities are walked.

  All of it is pure, so the model is datatypes, functions and lemmas
  (modules `ItineraryDisplay` and `ItineraryProperties`).
- **The loading indicator** (`src/app/components/LoadingState.tsx`, lines 4-26) reveals six
  fixed progress messages, one per timer tick. Its state is a counter and the list on screen.
  The module `LoadingState` describes that state as a value (`Step`, `Run`). It also holds a
  class `Sequencer` whose `Tick` method updates the two fields in place.

Two helper modules hold the JavaScript semantics the components depend on:
- `Text`: decimal rendering of numbers, and `String.prototype.replace` with a string pattern,
  which replaces only the first occurrence.
- `JsValues`: truthiness, where undefined, `""` and `0` are falsy; the `||` fallback; `xs?.[0]`;
  and the difference between a JSX child `{v}` and a template literal `${v}`. For an undefined
  value, the JSX child renders nothing and the template literal writes "undefined".

External records are datatypes whose nested fields are all `Option`s. Every panel is a value
that holds the texts it would show.

Some behaviour of the code is worth knowing:
- The duration text has the first "PT" *anywhere* in it deleted. A duration with a day part,
  such as "P1DT2H", has no "PT" substring, so it is shown as "P1DT2h "
  (`DayDurationKeepsDesignators`).
- The hotel price is built with a template literal. A total without a currency is shown as
  "<total> undefined" (`PriceWithoutCurrency`). The flight price uses JSX children, so a
  missing part is shown as nothing.
- `src/app/components/LoadingState.tsx` lines 46-234 contain a second, malformed copy of the
  itinerary view. That copy shows 3 hotels (line 215) and falls back to the Clock icon
  (line 97). The canonical file shows 6 hotels and falls back to MapPin, and only the
  canonical file is modelled.

## Model

| member | source | states |
|---|---|---|
| `ItineraryDisplay.ActivityIcon` | src/app/components/ItineraryDisplay.tsx:46-61 | every kind gets an icon; Plane iff "transfer", Utensils iff "food", Home iff "lodging", Clock iff "free-time", MapPin iff "activity" or any undeclared kind |
| `ItineraryDisplay.RealFlightPanel` | src/app/components/ItineraryDisplay.tsx:63-67 | the real-flight panel exists iff the list is non-empty and is built from element 0 alone |
| `ItineraryDisplay.FlightPanelOf` | src/app/components/ItineraryDisplay.tsx:66-93 | airline is the first validating code when truthy, else "Multiple Airlines"; aircraft is the code when truthy, else "N/A"; neither is ever blank; the price line is "total currency" with absent parts rendered as nothing; the airports are the outbound segment's codes, and its raw departure and arrival times go to the time formatter; without an outbound segment the airports are empty and no duration is shown; the duration is shown iff present, reworded |
| `ItineraryProperties.OnlyFirstFlightRead` | src/app/components/ItineraryDisplay.tsx:64-67 | two flight lists with the same first element give the same panel |
| `ItineraryProperties.PriceOnlyFlight` | src/app/components/ItineraryDisplay.tsx:76-93 | a flight with only a price shows "total currency", the airline and aircraft placeholders, empty airport codes, no raw times and no duration |
| `ItineraryDisplay.FormatDuration` | src/app/components/ItineraryDisplay.tsx:89 | the three replacements shorten the text by at most 2 characters and lengthen it by at most 1 |
| `ItineraryDisplay.FormatDurationPassThrough` | src/app/components/ItineraryDisplay.tsx:89 | a duration text without 'T', 'H' or 'M' is shown as it is |
| `ItineraryProperties.FormatTimeDuration` | src/app/components/ItineraryDisplay.tsx:89 | for every duration "PT[hH][mM][sS]" with digit parts, the text is "[hh ][mm]" then the seconds part unchanged |
| `ItineraryProperties.StripPT` | src/app/components/ItineraryDisplay.tsx:89 | the first replacement deletes the leading "PT" and keeps the rest |
| `ItineraryProperties.RewriteHours` | src/app/components/ItineraryDisplay.tsx:89 | the second replacement turns the hour designator into "h " and changes nothing else |
| `ItineraryProperties.RewriteMinutes` | src/app/components/ItineraryDisplay.tsx:89 | the third replacement turns the minute designator into "m" and changes nothing else |
| `ItineraryProperties.HoursAndMinutesExample` | src/app/components/ItineraryDisplay.tsx:89 | "PT2H30M" is shown as "2h 30m" |
| `ItineraryProperties.MinutesOnlyExample` | src/app/components/ItineraryDisplay.tsx:89 | "PT45M" is shown as "45m" |
| `ItineraryProperties.DayDurationKeepsDesignators` | src/app/components/ItineraryDisplay.tsx:89 | for every "P<d>DT<h>H" (e.g. "P1DT2H"), there is no "PT" to delete, so only the "H" is rewritten: "P<d>DT<h>h " |
| `ItineraryDisplay.HotelName` | src/app/components/ItineraryDisplay.tsx:115 | the name when truthy, else "Hotel Name Not Available"; never blank |
| `ItineraryDisplay.RatingText` | src/app/components/ItineraryDisplay.tsx:122 | "r/5" when the rating is truthy, else "No rating" |
| `ItineraryDisplay.HotelRating` | src/app/components/ItineraryDisplay.tsx:122 | the rating text is `RatingText` of the record's own `hotel.rating`, and "No rating" when the record has no hotel object; it is never blank |
| `ItineraryProperties.RatingTruthiness` | src/app/components/ItineraryDisplay.tsx:122 | numeric 0 and "" give "No rating"; the string "0" gives "0/5" |
| `ItineraryDisplay.HotelPrice` | src/app/components/ItineraryDisplay.tsx:130-132 | "total currency" from the first offer when its total is truthy, else "Price on request"; never blank |
| `ItineraryProperties.PriceWithoutCurrency` | src/app/components/ItineraryDisplay.tsx:130-132 | a total with no currency is shown as "total undefined" |
| `ItineraryDisplay.HotelLocation` | src/app/components/ItineraryDisplay.tsx:137-144 | a location line is shown iff the hotel has an address, and it reads "first line, city" with absent parts rendered as nothing (so an address without lines reads ", city") |
| `ItineraryDisplay.AmenitySummaryOf` | src/app/components/ItineraryDisplay.tsx:147-159 | nothing when amenities are missing or empty; otherwise the first min(3, n) in order, and "+(n-3) more" exactly when n > 3 |
| `ItineraryProperties.AmenitiesAccountedFor` | src/app/components/ItineraryDisplay.tsx:150-158 | the shown amenities plus the number in the "+N more" label add up to n; with no label all are shown |
| `ItineraryProperties.ManyAmenities` | src/app/components/ItineraryDisplay.tsx:155-158 | a hotel with more than three amenities shows the first three and "+(n-3) more" |
| `ItineraryDisplay.HotelCardOf` | src/app/components/ItineraryDisplay.tsx:113-162 | each field of the card is this hotel's own text: name `HotelName`, rating `HotelRating`, price `HotelPrice`, location `HotelLocation` and amenities `AmenitySummaryOf` of its amenity list; name, rating and price are never blank whatever fields the record lacks |
| `ItineraryDisplay.RealHotelPanel` | src/app/components/ItineraryDisplay.tsx:103-112 | the panel exists iff the list is non-empty; the heading counts all n hotels; the cards are the first min(6, n) hotels, in input order |
| `ItineraryProperties.HotelsAfterSixIgnored` | src/app/components/ItineraryDisplay.tsx:112 | two lists of equal length that agree on their first six hotels give the same panel |
| `ItineraryProperties.HeadingCountsAllHotels` | src/app/components/ItineraryDisplay.tsx:109 | the heading's number reads back as the full count of hotels found |
| `ItineraryDisplay.AiFlightAirline` | src/app/components/ItineraryDisplay.tsx:214-215 | the flight number appears in parentheses after the airline iff it is truthy |
| `ItineraryDisplay.AiFlightPanelOf` | src/app/components/ItineraryDisplay.tsx:207-221 | the AI flight panel shows the airline line, and the itinerary's own estimated cost, departure and arrival unchanged |
| `ItineraryDisplay.LodgingCardOf` | src/app/components/ItineraryDisplay.tsx:173-189 | the lodging card appears iff the type is "lodging" and details are present, and shows exactly the hotel name and the estimated cost |
| `ItineraryDisplay.ActivityViewOf` | src/app/components/ItineraryDisplay.tsx:228-250 | an activity shows its kind's icon, its title and "start - end"; the activity's own description iff it is truthy; the lodging card rule; an image requested with the activity's own query iff that query is truthy |
| `ItineraryDisplay.ActivityViews` | src/app/components/ItineraryDisplay.tsx:228 | one view per activity, in input order |
| `ItineraryDisplay.DayViewOf` | src/app/components/ItineraryDisplay.tsx:226-228 | the heading is "Day n: theme" and the activities are walked in order |
| `ItineraryDisplay.DayViews` | src/app/components/ItineraryDisplay.tsx:225 | one view per day, in input order |
| `ItineraryDisplay.RenderItinerary` | src/app/components/ItineraryDisplay.tsx:195-258 | title and summary pass through; each real-data panel exists iff its list is non-empty and is `RealFlightPanel` / `RealHotelPanel` of that list; the AI flight panel is the one built from the itinerary's flight details; day i, activity j of the page is the view of day i, activity j of the itinerary |
| `Text.NatToString` | src/app/components/ItineraryDisplay.tsx:157 | a count is written as decimal digits with no leading zero and reads back as the count |
| `Text.IntToString` | src/app/components/ItineraryDisplay.tsx:227 | a day number is written with a '-' iff it is negative, and its digits have no leading zero ("0" for zero) and read back as its magnitude |
| `Text.FindFrom` | src/app/components/ItineraryDisplay.tsx:89 | the index found is an occurrence with no earlier one; no index is found only when there is no occurrence |
| `Text.ReplaceFirst` | src/app/components/ItineraryDisplay.tsx:89 | `replace` leaves a string without the pattern unchanged, and otherwise changes its length by exactly the replacement's length minus the pattern's (one occurrence replaced; which one is stated by `Text.ReplaceFirstAt`) |
| `Text.ReplaceFirstAt` | src/app/components/ItineraryDisplay.tsx:89 | `replace` with a string pattern rewrites exactly its first occurrence |
| `Text.ReplaceFirstAbsent` | src/app/components/ItineraryDisplay.tsx:89 | `replace` leaves a string without the pattern unchanged |
| `Text.ReplaceFirstChar` | src/app/components/ItineraryDisplay.tsx:89 | a one-character pattern is replaced at its first position |
| `Text.ReplaceFirstCharAbsent` | src/app/components/ItineraryDisplay.tsx:89 | a missing one-character pattern leaves the string unchanged |
| `JsValues.OrElse` | src/app/components/ItineraryDisplay.tsx:77 | the or-fallback gives v when truthy, else the fallback, and is never blank when the fallback is not |
| `JsValues.First` | src/app/components/ItineraryDisplay.tsx:67 | `xs?.[0]` is defined iff the list is present and non-empty, and is its first element |
| `JsValues.ScalarText` | src/app/components/ItineraryDisplay.tsx:122 | a string is written as itself, and a number as its decimal rendering: a '-' iff it is negative, then digits with no leading zero that read back as its magnitude |
| `LoadingState.Step` | src/app/components/LoadingState.tsx:18-22 | below 6, a tick appends message[counter] and adds exactly one to the counter; at 6 it changes nothing; it preserves the prefix invariant |
| `LoadingState.RunReveals` | src/app/components/LoadingState.tsx:17-23 | after k ticks, the counter is min(k, 6) and the list is the first min(k, 6) messages |
| `LoadingState.TerminalIsStable` | src/app/components/LoadingState.tsx:19 | from 6 ticks on, a tick changes nothing and all six messages are shown |
| `LoadingState.NoDuplicates` | src/app/components/LoadingState.tsx:8-21 | in every consistent state, no message is shown twice |
| `LoadingState.Timeline` | src/app/components/LoadingState.tsx:17-23 | the list is empty at mount, holds message 1 after one tick, all six after six ticks, and still exactly six after thirteen |
| `LoadingState.Sequencer.constructor` | src/app/components/LoadingState.tsx:5-6 | mounting starts with counter 0 and an empty list |
| `LoadingState.Sequencer.Tick` | src/app/components/LoadingState.tsx:18-22 | the interval callback updates both fields in place as `Step` does and keeps the prefix invariant |

## Left out

- JSX markup, CSS classes and icon components: icons are an enum and panels are values of texts.
- `new Date(...).toLocaleTimeString()` (ItineraryDisplay.tsx:83, 86) is locale-dependent formatting in a foreign library. The flight panel keeps the raw `at` timestamp that would be handed to it. When that timestamp is absent, the page shows " at Invalid Date" after the (empty) airport code; the model records only that the timestamp is absent.
- `None` models an absent field. A field that is present with the JSON value `null` is not modelled separately. The two differ in the template literal of ItineraryDisplay.tsx:131, where a `null` currency reads "total null" and not "total undefined". They also differ at ItineraryDisplay.tsx:83 and 86: a `null` timestamp gives `new Date(null)`, the epoch, which shows a clock time, while an absent one gives Invalid Date.
- The image URL (ItineraryDisplay.tsx:245) comes from `encodeURIComponent` and an external placeholder-image service. An activity view keeps only the query the image would be requested with.
- `handleImageError` (ItineraryDisplay.tsx:191-193) hides an image element in the browser's DOM. It is not modelled.
- The fixed banner and heading texts ("Real Flight Available", "AI Suggested Flight", the data-source notes) are not modelled.
- `setInterval`/`clearInterval`, the 1500 ms period and the effect's re-subscription on `currentMessage` (LoadingState.tsx:17-26) are lifecycle and timer scheduling. They are modelled as abstract ticks.
- The rendering of the message list (LoadingState.tsx:28-43) is not modelled.
- JavaScript numbers are modelled as unbounded integers only. A fractional rating or price, and the decimal rendering JavaScript gives it, are not modelled. Nor is the exponent form JavaScript writes for integers of 1e21 or more ("1e+21"): `Num(n)` is always written as plain digits.
