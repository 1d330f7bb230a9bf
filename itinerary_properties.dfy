/**
 * Properties of the itinerary view that relate several of its functions or
 * hold for whole families of inputs.
 */
module ItineraryProperties {
  import opened Wrappers
  import opened Text
  import opened JsValues
  import opened ItineraryDisplay

  // ---------------------------------------------------------------------
  // Duration reformatting
  // ---------------------------------------------------------------------

  /** One designated component of a duration: the digits followed by the designator, or nothing. */
  function Component(digits: Option<string>, designator: string): string
  {
    if digits.Some? then digits.value + designator else ""
  }

  /**
   * A time-only duration in the format with designators of ISO 8601:2004
   * (section 4.4.3.2), e.g. "PT2H30M": "PT", then hours, minutes and seconds,
   * each optional.
   */
  function TimeDuration(h: Option<string>, m: Option<string>, s: Option<string>): string
  {
    "PT" + (Component(h, "H") + (Component(m, "M") + Component(s, "S")))
  }

  predicate DigitsIfPresent(x: Option<string>)
  {
    x.Some? ==> AllDigits(x.value)
  }

  lemma DigitsExclude(s: string, c: char)
    requires AllDigits(s) && !IsDigit(c)
    ensures c !in s
  {
  }

  lemma ComponentExcludes(x: Option<string>, designator: string, c: char)
    requires DigitsIfPresent(x) && !IsDigit(c) && c !in designator
    ensures c !in Component(x, designator)
  {
    if x.Some? {
      DigitsExclude(x.value, c);
    }
  }

  /** First step: the leading "PT" is deleted. */
  lemma StripPT(rest: string)
    ensures ReplaceFirst("PT" + rest, "PT", "") == rest
  {
    var d := "PT" + rest;
    assert OccursAt(d, "PT", 0) by { assert d[0..2] == "PT"; }
    ReplaceFirstAt(d, "PT", "", 0);
    assert d[2..] == rest;
  }

  /** A designator right after digit-only text, with any text before, is the first of its kind. */
  lemma RewriteAfterDigits(before: string, digits: string, c: char, rest: string, rep: string)
    requires c !in before && AllDigits(digits) && !IsDigit(c)
    ensures ReplaceFirst(before + ((digits + [c]) + rest), [c], rep) == before + ((digits + rep) + rest)
  {
    DigitsExclude(digits, c);
    var pre := before + digits;
    assert c !in pre;
    assert before + ((digits + [c]) + rest) == pre + [c] + rest;
    ReplaceFirstChar(pre, c, rest, rep);
    assert pre + rep + rest == before + ((digits + rep) + rest);
  }

  /** Second step: the "H" after the hour digits becomes "h ". */
  lemma RewriteHours(h: Option<string>, m: Option<string>, s: Option<string>)
    requires DigitsIfPresent(h) && DigitsIfPresent(m) && DigitsIfPresent(s)
    ensures ReplaceFirst(Component(h, "H") + (Component(m, "M") + Component(s, "S")), "H", "h ")
         == Component(h, "h ") + (Component(m, "M") + Component(s, "S"))
  {
    var rest := Component(m, "M") + Component(s, "S");
    ComponentExcludes(m, "M", 'H');
    ComponentExcludes(s, "S", 'H');
    if h.Some? {
      RewriteAfterDigits("", h.value, 'H', rest, "h ");
      assert "" + ((h.value + ['H']) + rest) == Component(h, "H") + rest;
      assert "" + ((h.value + "h ") + rest) == Component(h, "h ") + rest;
    } else {
      assert 'H' !in rest;
      ReplaceFirstCharAbsent(rest, 'H', "h ");
      assert Component(h, "H") + rest == rest;
      assert Component(h, "h ") + rest == rest;
    }
  }

  /** Third step: the "M" after the minute digits becomes "m". */
  lemma RewriteMinutes(h: Option<string>, m: Option<string>, s: Option<string>)
    requires DigitsIfPresent(h) && DigitsIfPresent(m) && DigitsIfPresent(s)
    ensures ReplaceFirst(Component(h, "h ") + (Component(m, "M") + Component(s, "S")), "M", "m")
         == Component(h, "h ") + (Component(m, "m") + Component(s, "S"))
  {
    var hh, ss := Component(h, "h "), Component(s, "S");
    ComponentExcludes(h, "h ", 'M');
    ComponentExcludes(s, "S", 'M');
    if m.Some? {
      RewriteAfterDigits(hh, m.value, 'M', ss, "m");
    } else {
      assert 'M' !in hh + ss;
      ReplaceFirstCharAbsent(hh + ss, 'M', "m");
      assert hh + (Component(m, "M") + ss) == hh + ss;
      assert hh + (Component(m, "m") + ss) == hh + ss;
    }
  }

  /**
   * For every time-only duration with digit components, the displayed text is
   * "<h>h <m>m" followed by the seconds left as they were: the leading "PT" is
   * gone, "H" became "h " and "M" became "m".
   */
  lemma FormatTimeDuration(h: Option<string>, m: Option<string>, s: Option<string>)
    requires DigitsIfPresent(h) && DigitsIfPresent(m) && DigitsIfPresent(s)
    ensures FormatDuration(TimeDuration(h, m, s)) == Component(h, "h ") + (Component(m, "m") + Component(s, "S"))
  {
    StripPT(Component(h, "H") + (Component(m, "M") + Component(s, "S")));
    RewriteHours(h, m, s);
    RewriteMinutes(h, m, s);
  }

  /**
   * For example, "PT2H30M" reads "2h 30m". The duration is a parameter fixed by
   * the requires clause rather than a literal in the ensures, so that the
   * verifier does not try to evaluate the replacements on the literal by unfolding.
   */
  lemma HoursAndMinutesExample(d: string)
    requires d == "PT2H30M"
    ensures FormatDuration(d) == "2h 30m"
  {
    var h, m := Some("2"), Some("30");
    assert TimeDuration(h, m, None) == d;
    FormatTimeDuration(h, m, None);
  }

  /** For example, "PT45M" reads "45m" (a parameter for the same reason as above). */
  lemma MinutesOnlyExample(d: string)
    requires d == "PT45M"
    ensures FormatDuration(d) == "45m"
  {
    var m := Some("45");
    assert TimeDuration(None, m, None) == d;
    FormatTimeDuration(None, m, None);
  }

  /** "P" followed by text without "P" that does not start with "T" contains no "PT". */
  lemma NoPTAfterLeadingP(tail: string)
    requires 'P' !in tail && |tail| > 0 && tail[0] != 'T'
    ensures forall j: nat :: !OccursAt("P" + tail, "PT", j)
  {
    var s := "P" + tail;
    forall j: nat
      ensures !OccursAt(s, "PT", j)
    {
      if j + 2 <= |s| {
        assert s[j..j + 2] == [s[j], s[j + 1]];
        if j == 0 {
          assert s[1] == tail[0];
        } else {
          assert s[j] == tail[j - 1];
        }
      }
    }
  }

  /**
   * A duration with a day component, "P<d>DT<h>H", contains no "PT": it keeps
   * its "P", "D" and "T" and only its "H" is rewritten.
   */
  lemma DayDurationKeepsDesignators(d: string, h: string)
    requires |d| > 0 && AllDigits(d) && AllDigits(h)
    ensures FormatDuration("P" + (d + "DT" + h) + "H") == "P" + (d + "DT" + h) + "h "
  {
    var tail := d + "DT" + h;
    DigitsExclude(d, 'P');
    DigitsExclude(h, 'P');
    assert tail[0] == d[0];
    NoPTAfterLeadingP(tail + "H");
    assert "P" + (tail + "H") == "P" + tail + "H";
    ReplaceFirstAbsent("P" + tail + "H", "PT", "");
    var pre := "P" + tail;
    DigitsExclude(d, 'H');
    DigitsExclude(h, 'H');
    assert pre + "H" == pre + ['H'] + "";
    ReplaceFirstChar(pre, 'H', "", "h ");
    assert pre + "h " + "" == pre + "h ";
    DigitsExclude(d, 'M');
    DigitsExclude(h, 'M');
    ReplaceFirstCharAbsent(pre + "h ", 'M', "m");
  }

  // ---------------------------------------------------------------------
  // Real flight
  // ---------------------------------------------------------------------

  /** Only the first flight is read: two lists with the same first flight give the same panel. */
  lemma OnlyFirstFlightRead(a: seq<FlightOffer>, b: seq<FlightOffer>)
    requires |a| > 0 && |b| > 0 && a[0] == b[0]
    ensures RealFlightPanel(a) == RealFlightPanel(b)
  {
  }

  /**
   * A flight with nothing but a price shows its price, the airline and aircraft
   * placeholders, empty airport codes, no timestamps and no duration.
   */
  lemma PriceOnlyFlight(total: Scalar, currency: string)
    ensures RealFlightPanel([FlightOffer(None, Some(Price(Some(total), Some(currency))), None)])
         == Some(FlightPanel("Multiple Airlines", ScalarText(total) + " " + currency, "", None, "", None, None, "N/A"))
  {
  }

  // ---------------------------------------------------------------------
  // Real hotels
  // ---------------------------------------------------------------------

  /** Hotels after the sixth are never shown: only their number reaches the heading. */
  lemma HotelsAfterSixIgnored(a: seq<HotelResult>, b: seq<HotelResult>)
    requires |a| == |b|
    requires a[..Min(MaxHotelCards, |a|)] == b[..Min(MaxHotelCards, |b|)]
    ensures RealHotelPanel(a) == RealHotelPanel(b)
  {
    if |a| > 0 {
      var pa, pb := RealHotelPanel(a).value, RealHotelPanel(b).value;
      forall i | 0 <= i < |pa.cards|
        ensures pa.cards[i] == pb.cards[i]
      {
        assert a[i] == a[..Min(MaxHotelCards, |a|)][i];
        assert b[i] == b[..Min(MaxHotelCards, |b|)][i];
      }
    }
  }

  /** The heading's count is the number of hotels found, all of them, not the number of cards. */
  lemma HeadingCountsAllHotels(hotels: seq<HotelResult>)
    requires |hotels| > 0
    ensures exists digits ::
              && AllDigits(digits)
              && RealHotelPanel(hotels).value.heading == "Available Hotels (" + digits + " found)"
              && DecimalValue(digits) == |hotels|
  {
    var digits := NatToString(|hotels|);
    assert AllDigits(digits) && DecimalValue(digits) == |hotels|;
    assert RealHotelPanel(hotels).value.heading == "Available Hotels (" + digits + " found)";
  }

  /**
   * Every amenity is accounted for: the shown ones plus the number in "+N more"
   * make up the whole list, and without the label every amenity is shown.
   */
  lemma AmenitiesAccountedFor(amenities: seq<string>)
    requires |amenities| > 0
    ensures var summary := AmenitySummaryOf(Some(amenities)).value;
      && (summary.more.None? ==> summary.shown == amenities)
      && (summary.more.Some? ==> |summary.shown| == MaxAmenities)
      && (summary.more.Some? ==>
            exists digits ::
              && AllDigits(digits)
              && summary.more.value == "+" + digits + " more"
              && |summary.shown| + DecimalValue(digits) == |amenities|)
  {
    var summary := AmenitySummaryOf(Some(amenities)).value;
    if summary.more.Some? {
      var digits := NatToString(|amenities| - MaxAmenities);
      assert AllDigits(digits) && summary.more.value == "+" + digits + " more";
    } else {
      assert amenities[..|amenities|] == amenities;
    }
  }

  /** A hotel with more than three amenities shows three and "+(n-3) more". */
  lemma ManyAmenities(h: HotelResult)
    requires h.hotel.Some? && h.hotel.value.amenities.Some? && |h.hotel.value.amenities.value| > MaxAmenities
    ensures var card := HotelCardOf(h);
      && card.amenities.Some?
      && card.amenities.value.shown == h.hotel.value.amenities.value[..MaxAmenities]
      && card.amenities.value.more == Some(MoreLabel(|h.hotel.value.amenities.value| - MaxAmenities))
  {
  }

  /** Truthiness, not presence, decides the rating text: a numeric 0 is "No rating", the string "0" is not. */
  lemma RatingTruthiness()
    ensures RatingText(Some(Num(0))) == "No rating"
    ensures RatingText(Some(Str(""))) == "No rating"
    ensures RatingText(Some(Str("0"))) == "0/5"
    ensures RatingText(Some(Num(4))) == "4/5"
  {
  }

  /** A price whose currency is missing is still shown, with the word "undefined" after the total. */
  lemma PriceWithoutCurrency(total: string)
    requires total != ""
    ensures HotelPrice(HotelResult(None, Some([HotelOffer(Some(Price(Some(Str(total)), None)))])))
         == total + " undefined"
  {
  }
}
