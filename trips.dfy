/** A trip: the days it is made of and the highlights marked on it. */
module Trips {
  import opened Outcomes
  import opened Seqs
  import Dates
  import TripDays
  import Highlights

  datatype Trip = Trip(title: string,
                       tripDays: seq<TripDays.TripDay>,
                       highlights: seq<Highlights.Highlight> := [],
                       summary: Option<string> := None)

  /** The test of the comprehension: the highlight starts on `date`. */
  function StartsOn(date: Dates.Date): Highlights.Highlight -> bool
  {
    (h: Highlights.Highlight) => h.fromDate == date
  }

  /** `highlights_on_date`: the highlights that start on `date`, in the trip's order. */
  function HighlightsOnDate(trip: Trip, date: Dates.Date): (r: seq<Highlights.Highlight>)
    ensures |r| <= |trip.highlights|
    ensures forall h :: h in r ==> h in trip.highlights && h.fromDate == date
  {
    Filter(StartsOn(date), trip.highlights)
  }

  /** Every highlight of the trip that starts on the date is returned, as many times as the
      trip lists it, in the trip's order. */
  lemma HighlightsOnDateExact(trip: Trip, date: Dates.Date)
    ensures forall h :: h in HighlightsOnDate(trip, date) <==> h in trip.highlights && h.fromDate == date
    ensures forall h: Highlights.Highlight :: multiset(HighlightsOnDate(trip, date))[h] ==
                                               if h.fromDate == date then multiset(trip.highlights)[h] else 0
    ensures SubsequenceOf(HighlightsOnDate(trip, date), trip.highlights)
  {
    forall h: Highlights.Highlight {
      FilterCount(StartsOn(date), trip.highlights, h);
    }
    FilterIsSubsequence(StartsOn(date), trip.highlights);
  }

  /** The end date is not consulted: a highlight spanning several days is returned on its
      first day only, and on any day it is returned iff it starts then. */
  lemma MultiDayHighlightOnStartOnly(trip: Trip, h: Highlights.Highlight, date: Dates.Date)
    requires h in trip.highlights
    ensures h in HighlightsOnDate(trip, date) <==> date == h.fromDate
  {
    FilterMember(StartsOn(date), trip.highlights, h);
  }

  /** Every highlight is returned on at most one date, and all of them are returned when
      they all start on the same date. */
  lemma HighlightsOnDatePartition(trip: Trip, date: Dates.Date, other: Dates.Date)
    requires date != other
    ensures forall h :: !(h in HighlightsOnDate(trip, date) && h in HighlightsOnDate(trip, other))
    ensures HighlightsOnDate(trip, date) == trip.highlights <==>
            forall h :: h in trip.highlights ==> h.fromDate == date
  {
    FilterKeepsAll(StartsOn(date), trip.highlights);
  }

  /** A trip given only its title and days has no highlights and no summary. */
  lemma NewTripIsEmpty(title: string, days: seq<TripDays.TripDay>, date: Dates.Date)
    ensures Trip(title, days).highlights == [] && Trip(title, days).summary == None
    ensures HighlightsOnDate(Trip(title, days), date) == []
  {
  }
}
