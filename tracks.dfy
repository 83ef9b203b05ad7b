/** A GPS track asset: its parsed GPX document (tracks, segments, points) and the members
    the redaction engine uses. The document attribute and its persistence are not part of
    the shown code; they are modelled by the behaviour the engine relies on. */
module Tracks {
  import opened Outcomes
  import Assets

  /** A GPX track point; `details` stands for everything but the position (elevation, time...). */
  datatype TrackPoint = TrackPoint(latitude: real, longitude: real, details: string)
  datatype Segment = Segment(points: seq<TrackPoint>)
  datatype GpxTrack = GpxTrack(segments: seq<Segment>)
  datatype GpxDocument = GpxDocument(tracks: seq<GpxTrack>)

  /** The points of a run of segments, in document order. */
  function SegmentsPoints(segments: seq<Segment>): seq<TrackPoint>
  {
    if segments == [] then []
    else SegmentsPoints(segments[..|segments| - 1]) + segments[|segments| - 1].points
  }

  /** The points of a run of tracks, in document order. */
  function TracksPoints(tracks: seq<GpxTrack>): seq<TrackPoint>
  {
    if tracks == [] then []
    else TracksPoints(tracks[..|tracks| - 1]) + SegmentsPoints(tracks[|tracks| - 1].segments)
  }

  /** Appending a segment appends its points. */
  lemma SegmentsPointsSnoc(segments: seq<Segment>, last: Segment)
    ensures SegmentsPoints(segments + [last]) == SegmentsPoints(segments) + last.points
  {
    assert (segments + [last])[..|segments|] == segments;
  }

  /** Appending a track appends the points of its segments. */
  lemma TracksPointsSnoc(tracks: seq<GpxTrack>, last: GpxTrack)
    ensures TracksPoints(tracks + [last]) == TracksPoints(tracks) + SegmentsPoints(last.segments)
  {
    assert (tracks + [last])[..|tracks|] == tracks;
  }

  function AllPoints(doc: GpxDocument): seq<TrackPoint>
  {
    TracksPoints(doc.tracks)
  }

  function PointCount(doc: GpxDocument): nat
  {
    |AllPoints(doc)|
  }

  /** A track object. `stored` is the document parsed from the file at `path`. */
  class Track {
    const path: string

    /** The `data` attribute, and whether it has been assigned since loading. */
    var data: GpxDocument
    var dataAssigned: bool

    /** Set by callers before a destructive operation; its default is not part of the model. */
    var isReadOnly: bool

    /** The document last written back to `path` by `persist_data`, if any. */
    var persisted: Option<GpxDocument>

    constructor (path: string, stored: GpxDocument)
      ensures this.path == path && data == stored && !dataAssigned && persisted == None
    {
      this.path := path;
      data := stored;
      dataAssigned := false;
      persisted := None;
    }

    function Filename(): string
    {
      Assets.Filename(path)
    }

    /** Assigning `track.data = document`: records the assignment. */
    method SetData(doc: GpxDocument)
      modifies this`data, this`dataAssigned
      ensures data == doc && dataAssigned
    {
      data := doc;
      dataAssigned := true;
    }

    /** `persist_data()`: writes the document back when it was assigned, and reports
        whether it did. */
    method PersistData() returns (written: bool)
      modifies this`persisted
      ensures written == dataAssigned
      ensures persisted == if written then Some(data) else old(persisted)
    {
      written := dataAssigned;
      if written {
        persisted := Some(data);
      }
    }
  }
}
