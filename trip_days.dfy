/** A day of a trip with its assets, its summary and free-form metadata. */
module TripDays {
  import opened Outcomes
  import Dates
  import Seqs
  import Pictures
  import Tracks

  datatype TripDay = TripDay(date: Dates.Date,
                             pictures: seq<Pictures.Picture> := [],
                             tracks: seq<Tracks.Track> := [],
                             metadata: map<string, string> := map[],
                             summary: Option<string> := None)

  /** The `date_iso` property: the day's date as YYYY-MM-DD, which reads back as the date. */
  function DateIso(day: TripDay): (s: string)
    requires Dates.Valid(day.date)
    ensures |s| == 10 && s[4] == '-' && s[7] == '-'
    ensures Dates.ParseIso(s) == Some(day.date)
  {
    Dates.IsoRoundTrip(day.date);
    Dates.DateIso(day.date)
  }

  /** The test the lookup applies to each picture. */
  function Named(filename: string): Pictures.Picture -> bool
  {
    (pic: Pictures.Picture) => pic.Filename() == filename
  }

  /** `find_picture_by_filename`: the first picture, in list order, whose file name is
      `filename`; `next` without a default raises StopIteration when there is none. */
  function FindPictureByFilename(day: TripDay, filename: string): (r: Result<Pictures.Picture>)
    ensures r.Err? <==> forall j :: 0 <= j < |day.pictures| ==> day.pictures[j].Filename() != filename
    ensures r.Err? ==> r.error == StopIteration
    ensures r.Ok? ==> r.value.Filename() == filename
    ensures r.Ok? ==> exists i :: 0 <= i < |day.pictures| && day.pictures[i] == r.value
                                  && forall j :: 0 <= j < i ==> day.pictures[j].Filename() != filename
  {
    var i := Seqs.FirstIndex(Named(filename), day.pictures);
    if i == |day.pictures| then
      Err(StopIteration)
    else
      assert forall j :: 0 <= j < i ==> day.pictures[j].Filename() != filename;
      Ok(day.pictures[i])
  }

  /** A day built from its date alone has no assets, no metadata and no summary, so no
      picture can be found in it. */
  lemma NewDayIsEmpty(date: Dates.Date, filename: string)
    ensures TripDay(date).pictures == [] && TripDay(date).tracks == []
    ensures TripDay(date).metadata == map[] && TripDay(date).summary == None
    ensures FindPictureByFilename(TripDay(date), filename) == Err(StopIteration)
  {
  }

  /** Appending pictures never changes which picture a successful lookup finds. */
  lemma {:induction false} FindIgnoresLaterPictures(day: TripDay, more: seq<Pictures.Picture>, filename: string)
    requires FindPictureByFilename(day, filename).Ok?
    ensures FindPictureByFilename(day.(pictures := day.pictures + more), filename) ==
            FindPictureByFilename(day, filename)
  {
    Seqs.FirstIndexAppend(Named(filename), day.pictures, more);
  }
}
