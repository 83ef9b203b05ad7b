/** Privacy zones: circles (centre and radius in kilometres) inside which pictures lose their
    EXIF position and tracks lose their points. */
module PrivacyZones {
  import opened Outcomes
  import opened Seqs
  import opened Geo
  import opened Pictures
  import opened Tracks

  datatype PrivacyZone = PrivacyZone(name: string, lat: real, lng: real, radius: int)

  /** The `coordinates` property: the centre, built with named fields. */
  function Center(zone: PrivacyZone): (c: Coordinates)
  {
    Coordinates(latitude := zone.lat, longitude := zone.lng)
  }

  /** `_is_point_inside`: the geodesic distance from the point to the centre is at most the
      radius, so the boundary circle counts as inside. */
  function IsPointInside(zone: PrivacyZone, point: Coordinates, geodesic: Geodesic): (inside: bool)
    ensures geodesic(point, Center(zone)) < zone.radius as real ==> inside
    ensures geodesic(point, Center(zone)) == zone.radius as real ==> inside
    ensures geodesic(point, Center(zone)) > zone.radius as real ==> !inside
    ensures zone.radius < 0 ==> !inside
    ensures point == Center(zone) && geodesic(point, point) == 0.0 ==> (inside <==> zone.radius >= 0)
  {
    geodesic(point, Center(zone)) <= zone.radius as real
  }

  /** Containment grows with the radius: a point inside a zone is inside every zone with
      the same centre and a radius at least as large. */
  lemma LargerZoneContains(zone: PrivacyZone, radius: int, point: Coordinates, geodesic: Geodesic)
    requires zone.radius <= radius && IsPointInside(zone, point, geodesic)
    ensures IsPointInside(zone.(radius := radius), point, geodesic)
  {
  }

  // ---------------------------------------------------------------------------------------
  // Pictures

  /** `is_picture_inside` given what the picture's `coordinates` property yields: a picture
      without coordinates is never inside; a raised error escapes. */
  function PictureInside(zone: PrivacyZone, located: Result<Option<Coordinates>>, geodesic: Geodesic): (r: Result<bool>)
    ensures located == Ok(None) ==> r == Ok(false)
    ensures located.Err? ==> r == Err(located.error)
    ensures located.Ok? && located.value.Some? ==> r == Ok(IsPointInside(zone, located.value.value, geodesic))
  {
    match located
    case Err(e) => Err(e)
    case Ok(None) => Ok(false)
    case Ok(Some(c)) => Ok(IsPointInside(zone, c, geodesic))
  }

  /** The index of the first zone, in list order, that contains `c`. */
  function FirstContaining(zones: seq<PrivacyZone>, c: Coordinates, geodesic: Geodesic): (r: Option<nat>)
    ensures r.Some? ==> r.value < |zones| && IsPointInside(zones[r.value], c, geodesic)
    ensures r.Some? ==> forall j :: 0 <= j < r.value ==> !IsPointInside(zones[j], c, geodesic)
    ensures r.None? ==> forall z :: z in zones ==> !IsPointInside(z, c, geodesic)
  {
    if zones == [] then None
    else if IsPointInside(zones[0], c, geodesic) then Some(0)
    else
      match FirstContaining(zones[1..], c, geodesic)
      case None => None
      case Some(k) => Some(k + 1)
  }

  /** The outcome of `apply_many_on_processed_picture`: zones are tried in order and the first
      that contains the picture ends the walk with True. */
  function RedactPicture(zones: seq<PrivacyZone>, located: Result<Option<Coordinates>>, geodesic: Geodesic): (r: Result<bool>)
    ensures zones == [] || located == Ok(None) ==> r == Ok(false)
    ensures zones != [] && located.Err? ==> r == Err(located.error)
    ensures located.Ok? && located.value.Some? ==>
              r == Ok(FirstContaining(zones, located.value.value, geodesic).Some?)
  {
    if zones == [] then Ok(false)
    else
      match PictureInside(zones[0], located, geodesic)
      case Err(e) => Err(e)
      case Ok(true) => Ok(true)
      case Ok(false) => RedactPicture(zones[1..], located, geodesic)
  }

  /** How many zones `apply_many_on_processed_picture` asks about the picture before it stops:
      up to and including the first containing one, or all of them. */
  function ZonesConsulted(zones: seq<PrivacyZone>, located: Result<Option<Coordinates>>, geodesic: Geodesic): (n: nat)
    ensures n <= |zones|
    ensures zones != [] && located.Err? ==> n == 1
    ensures located == Ok(None) ==> n == |zones|
    ensures located.Ok? && located.value.Some? ==>
              n == match FirstContaining(zones, located.value.value, geodesic)
                   case Some(k) => k + 1
                   case None => |zones|
  {
    if zones == [] then 0
    else
      match PictureInside(zones[0], located, geodesic)
      case Ok(false) => 1 + ZonesConsulted(zones[1..], located, geodesic)
      case _ => 1
  }

  /** `is_picture_inside(picture)`: reads the memoised `coordinates` property (twice, as the
      source does; the second read comes from the cache). */
  method IsPictureInside(zone: PrivacyZone, picture: Picture, geodesic: Geodesic) returns (r: Result<bool>)
    requires picture.Valid()
    modifies picture`exifCache, picture`exifReads, picture`coordinatesCache, picture`coordinateDerivations
    ensures picture.Valid()
    ensures r == PictureInside(zone, picture.Located(), geodesic)
    ensures picture.coordinatesCache.Some? <==> picture.Located().Ok?
  {
    var coordinates := picture.Coordinates();
    if coordinates.Err? {
      return Err(coordinates.error);
    }
    if coordinates.value.None? {
      return Ok(false);
    }
    coordinates := picture.Coordinates();
    r := Ok(IsPointInside(zone, coordinates.value.value, geodesic));
  }

  /** `apply_many_on_processed_picture(zones, path)`: opens the picture at `path` (whose EXIF
      content is `stored`), marks it writable, and strips its coordinates once at the first
      zone that contains it. `consulted` counts the zones asked. */
  method ApplyManyOnProcessedPicture(zones: seq<PrivacyZone>, path: string, stored: ExifImage,
                                     layout: CoordinatesLayout, geodesic: Geodesic)
    returns (r: Result<bool>, picture: Picture, ghost consulted: nat)
    ensures fresh(picture) && picture.Valid()
    ensures picture.path == path && picture.stored == stored && picture.layout == layout
    ensures !picture.isReadOnly
    ensures r == RedactPicture(zones, picture.Located(), geodesic)
    ensures consulted == ZonesConsulted(zones, picture.Located(), geodesic)
    ensures picture.coordinateRemovals == if r == Ok(true) then 1 else 0
  {
    picture := new Picture(path, stored, layout);
    picture.isReadOnly := false;
    ghost var located := picture.Located();
    consulted := 0;
    for i := 0 to |zones|
      invariant picture.Valid() && picture.path == path && picture.stored == stored && picture.layout == layout
      invariant !picture.isReadOnly && picture.coordinateRemovals == 0
      invariant consulted == i
      invariant RedactPicture(zones, located, geodesic) == RedactPicture(zones[i..], located, geodesic)
      invariant ZonesConsulted(zones, located, geodesic) == i + ZonesConsulted(zones[i..], located, geodesic)
    {
      assert zones[i..][1..] == zones[i + 1..];
      var inside := IsPictureInside(zones[i], picture, geodesic);
      consulted := consulted + 1;
      if inside.Err? {
        return Err(inside.error), picture, consulted;
      }
      if inside.value {
        picture.RemoveExifCoordinates();
        return Ok(true), picture, consulted;
      }
    }
    r := Ok(false);
  }

  // ---------------------------------------------------------------------------------------
  // Tracks

  /** A track point's position, built with named fields. */
  function PointCoordinates(p: TrackPoint): Coordinates
  {
    Coordinates(latitude := p.latitude, longitude := p.longitude)
  }

  /** The points a zone lets through. */
  function OutsideOf(zone: PrivacyZone, geodesic: Geodesic): TrackPoint -> bool
  {
    p => !IsPointInside(zone, PointCoordinates(p), geodesic)
  }

  function RedactSegment(zone: PrivacyZone, geodesic: Geodesic, segment: Segment): Segment
  {
    Segment(Filter(OutsideOf(zone, geodesic), segment.points))
  }

  function RedactSegments(zone: PrivacyZone, geodesic: Geodesic, segments: seq<Segment>): (r: seq<Segment>)
    ensures |r| == |segments|
    ensures forall i :: 0 <= i < |segments| ==> r[i] == RedactSegment(zone, geodesic, segments[i])
  {
    seq(|segments|, i requires 0 <= i < |segments| => RedactSegment(zone, geodesic, segments[i]))
  }

  function RedactTrack(zone: PrivacyZone, geodesic: Geodesic, track: GpxTrack): GpxTrack
  {
    GpxTrack(RedactSegments(zone, geodesic, track.segments))
  }

  function RedactTracks(zone: PrivacyZone, geodesic: Geodesic, tracks: seq<GpxTrack>): (r: seq<GpxTrack>)
    ensures |r| == |tracks|
    ensures forall i :: 0 <= i < |tracks| ==> r[i] == RedactTrack(zone, geodesic, tracks[i])
  {
    seq(|tracks|, i requires 0 <= i < |tracks| => RedactTrack(zone, geodesic, tracks[i]))
  }

  /** The document `process_track` leaves behind: every track and every segment is kept, even
      one that ends up empty, and each segment holds its former points outside the zone in
      their original order. */
  function RedactDocument(zone: PrivacyZone, geodesic: Geodesic, doc: GpxDocument): (r: GpxDocument)
    ensures |r.tracks| == |doc.tracks|
    ensures forall t :: 0 <= t < |doc.tracks| ==> |r.tracks[t].segments| == |doc.tracks[t].segments|
    ensures forall t, s :: 0 <= t < |doc.tracks| && 0 <= s < |doc.tracks[t].segments| ==>
              r.tracks[t].segments[s].points == Filter(OutsideOf(zone, geodesic), doc.tracks[t].segments[s].points)
  {
    GpxDocument(RedactTracks(zone, geodesic, doc.tracks))
  }

  /** `list.remove(x)`: drops the first element equal to `x`. */
  function RemoveFirst(s: seq<TrackPoint>, x: TrackPoint): (r: seq<TrackPoint>)
    requires x in s
    ensures |r| == |s| - 1
  {
    if s[0] == x then s[1..] else [s[0]] + RemoveFirst(s[1..], x)
  }

  lemma {:induction false} RemoveFirstAfter(prefix: seq<TrackPoint>, x: TrackPoint, rest: seq<TrackPoint>)
    requires x !in prefix
    ensures RemoveFirst(prefix + [x] + rest, x) == prefix + rest
  {
    if prefix != [] {
      assert (prefix + [x] + rest)[1..] == prefix[1..] + [x] + rest;
      RemoveFirstAfter(prefix[1..], x, rest);
    }
  }

  /** One step of the removal loop over a point outside the zone: the point is kept, and
      the state "points seen so far filtered, the rest untouched" moves one point further. */
  lemma KeepStep(outside: TrackPoint -> bool, snapshot: seq<TrackPoint>, i: nat)
    requires i < |snapshot| && outside(snapshot[i])
    ensures Filter(outside, snapshot[..i + 1]) + snapshot[i + 1..] == Filter(outside, snapshot[..i]) + snapshot[i..]
    ensures |Filter(outside, snapshot[..i + 1])| == |Filter(outside, snapshot[..i])| + 1
  {
    var done := Filter(outside, snapshot[..i]);
    assert Filter(outside, snapshot[..i + 1]) == done + [snapshot[i]] by {
      PrefixSnoc(snapshot, i);
      FilterSnoc(outside, snapshot[..i], snapshot[i]);
    }
    assert snapshot[i..] == [snapshot[i]] + snapshot[i + 1..] by {
      SuffixCons(snapshot, i);
    }
    assert (done + [snapshot[i]]) + snapshot[i + 1..] == done + ([snapshot[i]] + snapshot[i + 1..]);
  }

  /** One step of the removal loop over a point inside the zone: `remove` finds the point
      at the current position, since no kept point equals it, and the state moves one
      point further. */
  lemma RemoveStep(outside: TrackPoint -> bool, snapshot: seq<TrackPoint>, i: nat)
    requires i < |snapshot| && !outside(snapshot[i])
    ensures snapshot[i] in Filter(outside, snapshot[..i]) + snapshot[i..]
    ensures RemoveFirst(Filter(outside, snapshot[..i]) + snapshot[i..], snapshot[i])
            == Filter(outside, snapshot[..i + 1]) + snapshot[i + 1..]
    ensures |Filter(outside, snapshot[..i + 1])| == |Filter(outside, snapshot[..i])|
  {
    var done := Filter(outside, snapshot[..i]);
    var point := snapshot[i];
    var rest := snapshot[i + 1..];
    PrefixSnoc(snapshot, i);
    FilterSnoc(outside, snapshot[..i], point);
    assert point !in done;
    RemoveFirstAfter(done, point, rest);
    SuffixCons(snapshot, i);
    assert done + [point] + rest == done + snapshot[i..];
  }

  /** The innermost loop of `process_track`: walks a copy of the segment's points and removes
      from the segment each one inside the zone, counting the removals. */
  method RemovePointsInside(zone: PrivacyZone, points: seq<TrackPoint>, geodesic: Geodesic)
    returns (kept: seq<TrackPoint>, removed: nat)
    ensures kept == Filter(OutsideOf(zone, geodesic), points)
    ensures removed == |points| - |kept|
  {
    var outside := OutsideOf(zone, geodesic);
    var snapshot := points;
    kept := points;
    removed := 0;
    for i := 0 to |snapshot|
      invariant kept == Filter(outside, snapshot[..i]) + snapshot[i..]
      invariant removed == i - |Filter(outside, snapshot[..i])|
    {
      var point := snapshot[i];
      if IsPointInside(zone, PointCoordinates(point), geodesic) {
        RemoveStep(outside, snapshot, i);
        kept := RemoveFirst(kept, point);
        removed := removed + 1;
      } else {
        KeepStep(outside, snapshot, i);
      }
    }
    assert snapshot[..|snapshot|] == snapshot;
  }

  /** The segment loop of `process_track` over one track's segments. */
  method ProcessSegments(zone: PrivacyZone, segments: seq<Segment>, geodesic: Geodesic)
    returns (result: seq<Segment>, removed: nat)
    ensures result == RedactSegments(zone, geodesic, segments)
    ensures removed == |SegmentsPoints(segments)| - |SegmentsPoints(result)|
  {
    result := segments;
    removed := 0;
    for s := 0 to |segments|
      invariant |result| == |segments|
      invariant forall k :: 0 <= k < s ==> result[k] == RedactSegment(zone, geodesic, segments[k])
      invariant forall k :: s <= k < |segments| ==> result[k] == segments[k]
      invariant removed + |SegmentsPoints(result[..s])| == |SegmentsPoints(segments[..s])|
    {
      var kept, n := RemovePointsInside(zone, result[s].points, geodesic);
      ghost var before := result;
      result := result[s := Segment(kept)];
      removed := removed + n;
      UpdatedPrefix(before, s, Segment(kept));
      PrefixSnoc(segments, s);
      SegmentsPointsSnoc(before[..s], Segment(kept));
      SegmentsPointsSnoc(segments[..s], segments[s]);
    }
    assert result[..|segments|] == result;
    assert segments[..|segments|] == segments;
  }

  /** The track loop of `process_track`. */
  method ProcessTracks(zone: PrivacyZone, tracks: seq<GpxTrack>, geodesic: Geodesic)
    returns (result: seq<GpxTrack>, removed: nat)
    ensures result == RedactTracks(zone, geodesic, tracks)
    ensures removed == |TracksPoints(tracks)| - |TracksPoints(result)|
  {
    result := tracks;
    removed := 0;
    for t := 0 to |tracks|
      invariant |result| == |tracks|
      invariant forall k :: 0 <= k < t ==> result[k] == RedactTrack(zone, geodesic, tracks[k])
      invariant forall k :: t <= k < |tracks| ==> result[k] == tracks[k]
      invariant removed + |TracksPoints(result[..t])| == |TracksPoints(tracks[..t])|
    {
      var segments, n := ProcessSegments(zone, result[t].segments, geodesic);
      ghost var before := result;
      result := result[t := GpxTrack(segments)];
      removed := removed + n;
      UpdatedPrefix(before, t, GpxTrack(segments));
      PrefixSnoc(tracks, t);
      TracksPointsSnoc(before[..t], GpxTrack(segments));
      TracksPointsSnoc(tracks[..t], tracks[t]);
    }
    assert result[..|tracks|] == result;
    assert tracks[..|tracks|] == tracks;
  }

  /** `process_track(input_track)`: removes from the track's document, in place, every point
      inside the zone; the `data` attribute is assigned only when a point was removed. */
  method ProcessTrack(zone: PrivacyZone, inputTrack: Track, geodesic: Geodesic) returns (r: Track)
    modifies inputTrack`data, inputTrack`dataAssigned
    ensures r == inputTrack
    ensures inputTrack.data == RedactDocument(zone, geodesic, old(inputTrack.data))
    ensures inputTrack.dataAssigned ==
              (old(inputTrack.dataAssigned) || PointCount(inputTrack.data) < PointCount(old(inputTrack.data)))
  {
    var trackData := inputTrack.data;
    var tracks, pointsRemoved := ProcessTracks(zone, trackData.tracks, geodesic);
    // the segments are mutated through the document object the track itself holds
    inputTrack.data := GpxDocument(tracks);
    if pointsRemoved > 0 {
      inputTrack.SetData(inputTrack.data);
    }
    r := inputTrack;
  }

  // ---------------------------------------------------------------------------------------
  // What track redaction removes

  lemma {:induction false} SegmentsPointsRedacted(zone: PrivacyZone, geodesic: Geodesic, segments: seq<Segment>)
    ensures SegmentsPoints(RedactSegments(zone, geodesic, segments))
         == Filter(OutsideOf(zone, geodesic), SegmentsPoints(segments))
  {
    if segments != [] {
      var n := |segments| - 1;
      var r := RedactSegments(zone, geodesic, segments);
      assert r[..n] == RedactSegments(zone, geodesic, segments[..n]);
      SegmentsPointsRedacted(zone, geodesic, segments[..n]);
      FilterAppend(OutsideOf(zone, geodesic), SegmentsPoints(segments[..n]), segments[n].points);
    }
  }

  lemma {:induction false} TracksPointsRedacted(zone: PrivacyZone, geodesic: Geodesic, tracks: seq<GpxTrack>)
    ensures TracksPoints(RedactTracks(zone, geodesic, tracks))
         == Filter(OutsideOf(zone, geodesic), TracksPoints(tracks))
  {
    if tracks != [] {
      var n := |tracks| - 1;
      var r := RedactTracks(zone, geodesic, tracks);
      assert r[..n] == RedactTracks(zone, geodesic, tracks[..n]);
      TracksPointsRedacted(zone, geodesic, tracks[..n]);
      SegmentsPointsRedacted(zone, geodesic, tracks[n].segments);
      FilterAppend(OutsideOf(zone, geodesic), TracksPoints(tracks[..n]), SegmentsPoints(tracks[n].segments));
    }
  }

  /** Across the whole document, redaction keeps exactly the points outside the zone, in
      document order, so the number removed is the drop in the point count. */
  lemma DocumentPointsRedacted(zone: PrivacyZone, geodesic: Geodesic, doc: GpxDocument)
    ensures AllPoints(RedactDocument(zone, geodesic, doc)) == Filter(OutsideOf(zone, geodesic), AllPoints(doc))
    ensures PointCount(RedactDocument(zone, geodesic, doc)) <= PointCount(doc)
  {
    TracksPointsRedacted(zone, geodesic, doc.tracks);
  }

  /** Applying the same zone a second time removes nothing. */
  lemma RedactDocumentIdempotent(zone: PrivacyZone, geodesic: Geodesic, doc: GpxDocument)
    ensures RedactDocument(zone, geodesic, RedactDocument(zone, geodesic, doc)) == RedactDocument(zone, geodesic, doc)
  {
    var once := RedactDocument(zone, geodesic, doc);
    var twice := RedactDocument(zone, geodesic, once);
    forall t | 0 <= t < |doc.tracks|
      ensures twice.tracks[t] == once.tracks[t]
    {
      forall s | 0 <= s < |doc.tracks[t].segments|
        ensures twice.tracks[t].segments[s] == once.tracks[t].segments[s]
      {
        FilterIdempotent(OutsideOf(zone, geodesic), doc.tracks[t].segments[s].points);
      }
      assert twice.tracks[t].segments == once.tracks[t].segments;
    }
    assert twice.tracks == once.tracks;
  }

  /** The zones applied one after another, in list order. */
  function RedactAll(zones: seq<PrivacyZone>, geodesic: Geodesic, doc: GpxDocument): (r: GpxDocument)
    ensures zones == [] ==> r == doc
    ensures |r.tracks| == |doc.tracks|
  {
    if zones == [] then doc
    else RedactDocument(zones[|zones| - 1], geodesic, RedactAll(zones[..|zones| - 1], geodesic, doc))
  }

  /** The points every zone lets through. */
  function OutsideAll(zones: seq<PrivacyZone>, geodesic: Geodesic): TrackPoint -> bool
  {
    p => forall z :: z in zones ==> !IsPointInside(z, PointCoordinates(p), geodesic)
  }

  /** A point passes every zone of `init + [last]` when it passes those of `init` and `last`. */
  lemma FilterOutsideAllSnoc(init: seq<PrivacyZone>, last: PrivacyZone, geodesic: Geodesic, pts: seq<TrackPoint>)
    ensures Filter(OutsideOf(last, geodesic), Filter(OutsideAll(init, geodesic), pts))
         == Filter(OutsideAll(init + [last], geodesic), pts)
  {
    var both := x => OutsideAll(init, geodesic)(x) && OutsideOf(last, geodesic)(x);
    FilterFilter(OutsideAll(init, geodesic), OutsideOf(last, geodesic), pts);
    forall x | x in pts
      ensures both(x) == OutsideAll(init + [last], geodesic)(x)
    {
      assert forall z :: z in init + [last] <==> z in init || z == last;
    }
    FilterExtensional(both, OutsideAll(init + [last], geodesic), pts);
  }

  /** After all zones, each track keeps its number of segments. */
  lemma {:induction false} RedactAllShape(zones: seq<PrivacyZone>, geodesic: Geodesic, doc: GpxDocument, t: nat)
    requires t < |doc.tracks|
    ensures |RedactAll(zones, geodesic, doc).tracks| == |doc.tracks|
    ensures |RedactAll(zones, geodesic, doc).tracks[t].segments| == |doc.tracks[t].segments|
  {
    if zones != [] {
      RedactAllShape(zones[..|zones| - 1], geodesic, doc, t);
    }
  }

  /** After all zones, a segment holds exactly its points outside every zone, in order. */
  lemma {:induction false} RedactAllSegment(zones: seq<PrivacyZone>, geodesic: Geodesic, doc: GpxDocument, t: nat, s: nat)
    requires t < |doc.tracks| && s < |doc.tracks[t].segments|
    ensures |RedactAll(zones, geodesic, doc).tracks| == |doc.tracks|
    ensures |RedactAll(zones, geodesic, doc).tracks[t].segments| == |doc.tracks[t].segments|
    ensures RedactAll(zones, geodesic, doc).tracks[t].segments[s].points
         == Filter(OutsideAll(zones, geodesic), doc.tracks[t].segments[s].points)
  {
    var pts := doc.tracks[t].segments[s].points;
    RedactAllShape(zones, geodesic, doc, t);
    if zones == [] {
      FilterKeepsAll(OutsideAll(zones, geodesic), pts);
    } else {
      var init := zones[..|zones| - 1];
      var last := zones[|zones| - 1];
      RedactAllSegment(init, geodesic, doc, t, s);
      assert init + [last] == zones;
      FilterOutsideAllSnoc(init, last, geodesic, pts);
    }
  }

  /** After all zones, the whole document holds exactly its points outside every zone. */
  lemma {:induction false} RedactAllPoints(zones: seq<PrivacyZone>, geodesic: Geodesic, doc: GpxDocument)
    ensures AllPoints(RedactAll(zones, geodesic, doc)) == Filter(OutsideAll(zones, geodesic), AllPoints(doc))
  {
    if zones == [] {
      FilterKeepsAll(OutsideAll(zones, geodesic), AllPoints(doc));
    } else {
      var init := zones[..|zones| - 1];
      var last := zones[|zones| - 1];
      calc {
        AllPoints(RedactAll(zones, geodesic, doc));
        AllPoints(RedactDocument(last, geodesic, RedactAll(init, geodesic, doc)));
        { DocumentPointsRedacted(last, geodesic, RedactAll(init, geodesic, doc)); }
        Filter(OutsideOf(last, geodesic), AllPoints(RedactAll(init, geodesic, doc)));
        { RedactAllPoints(init, geodesic, doc); }
        Filter(OutsideOf(last, geodesic), Filter(OutsideAll(init, geodesic), AllPoints(doc)));
        { FilterOutsideAllSnoc(init, last, geodesic, AllPoints(doc)); }
        Filter(OutsideAll(init + [last], geodesic), AllPoints(doc));
        { LastSplit(zones); }
        Filter(OutsideAll(zones, geodesic), AllPoints(doc));
      }
    }
  }

  /** Track redaction reports a change exactly when some point of the document lies inside
      some zone. */
  lemma RedactAllShrinksIffInside(zones: seq<PrivacyZone>, geodesic: Geodesic, doc: GpxDocument)
    ensures PointCount(RedactAll(zones, geodesic, doc)) < PointCount(doc) <==>
              exists p, z :: p in AllPoints(doc) && z in zones && IsPointInside(z, PointCoordinates(p), geodesic)
  {
    RedactAllPoints(zones, geodesic, doc);
    FilterShrinks(OutsideAll(zones, geodesic), AllPoints(doc));
  }

  /** `apply_many_on_processed_track(zones, path)`: opens the track at `path` (whose parsed
      document is `stored`), marks it writable, applies every zone in turn without stopping
      early, and persists it; True exactly when some zone removed a point. */
  method ApplyManyOnProcessedTrack(zones: seq<PrivacyZone>, path: string, stored: GpxDocument, geodesic: Geodesic)
    returns (applied: bool, track: Track)
    ensures fresh(track) && track.path == path && !track.isReadOnly
    ensures track.data == RedactAll(zones, geodesic, stored)
    ensures applied == (PointCount(track.data) < PointCount(stored))
    ensures track.persisted == if applied then Some(track.data) else None
  {
    track := new Track(path, stored);
    track.isReadOnly := false;
    for i := 0 to |zones|
      invariant fresh(track) && track.path == path && !track.isReadOnly && track.persisted == None
      invariant track.data == RedactAll(zones[..i], geodesic, stored)
      invariant PointCount(track.data) <= PointCount(stored)
      invariant track.dataAssigned == (PointCount(track.data) < PointCount(stored))
    {
      assert zones[..i + 1][..i] == zones[..i];
      DocumentPointsRedacted(zones[i], geodesic, track.data);
      track := ProcessTrack(zones[i], track, geodesic);
    }
    assert zones[..|zones|] == zones;
    applied := track.PersistData();
  }
}
