/** Highlights: marked events of a trip, such as a special place visited, possibly spanning
    several days. */
module Highlights {
  import opened Outcomes
  import opened Dates

  class Highlight {
    const name: string
    const fromDate: Date
    const summary: Option<string>
    var toDate: Option<Date>

    /** Once constructed, a highlight always has an end date. */
    predicate Valid()
      reads this
    {
      toDate.Some?
    }

    /** The dataclass constructor followed by `__post_init__`. */
    constructor (name: string, fromDate: Date, summary: Option<string> := None, toDate: Option<Date> := None)
      ensures Valid()
      ensures this.name == name && this.fromDate == fromDate && this.summary == summary
      ensures toDate.Some? ==> this.toDate == toDate
      ensures toDate.None? ==> this.toDate == Some(fromDate)
    {
      this.name := name;
      this.fromDate := fromDate;
      this.summary := summary;
      this.toDate := toDate;
      new;
      PostInit();
    }

    /** `__post_init__`: a missing end date becomes the start date; a given one is kept.
        (A `date` is always truthy, so only None counts as missing.) */
    method PostInit()
      modifies this
      ensures Valid()
      ensures old(toDate).Some? ==> toDate == old(toDate)
      ensures old(toDate).None? ==> toDate == Some(fromDate)
    {
      if toDate.None? {
        toDate := Some(fromDate);
      }
    }
  }
}
