# travel_log: privacy zones, thumbnail cache and trip queries in Dafny

This project models the core of travel_log, a generator of static travel websites from
folders of pictures and GPX tracks. The modelled parts are:

- **Privacy zones** (`PrivacyZones`, privacy_zone.dfy). A zone is a named circle with a
  centre and a radius in kilometres.
  - A picture inside a zone loses its EXIF position. Zones are tried in order and the
    first zone that contains the picture ends the walk.
  - Every track point inside a zone is removed in place, segment by segment. The zones are
    applied one after another, and the track is written back only when a point was removed.
- **The thumbnail cache** (`PictureResizer`, picture_resizer.dfy). A thumbnail is cached at
  `cache_folder/<md5 hex of the picture's path joined with its file name>/<file name>`.
  - On a hit the cached file is copied to the output.
  - On a miss the hash directory is made, and the thumbnail is rendered into the cache and
    copied out. Then, because that branch does not return, it is rendered once more
    straight into the output.
  - The filesystem is a map from paths to contents plus a set of directories.
  - Each primitive (`copyfile`, `makedirs`, render-and-save) is a function from one state
    to an outcome and the next state.
  - A `FileSystem` object is mutated by the methods that follow the source statement by
    statement.
- **EXIF to coordinates** (`Pictures`, `CoordinatesUtils`). The EXIF dictionary and the
  coordinates are memoised per picture object. The coordinates are derived from the four
  GPS tags, in the order Python evaluates them.
  - The source crosses the reference letters: `gps_longitude` is signed by
    `gps_latitude_ref` and `gps_latitude` by `gps_longitude_ref`. The model reproduces this.
  - Degrees, minutes and seconds are converted over exact reals. Python's `round(x, 6)`
    (half to even) is a separate function.
- **Asset discovery and file names** (`Assets`, `Paths`):
  - the extension is the text after the last `.`;
  - `from_folder_path` filters a directory listing by extension, keeping listing order;
  - `filename` is the text after the last `/`, which round-trips with `os.path.join`.
- **Trip queries** (`TripDays`, `Trips`, `Highlights`, `Dates`):
  - `date_iso` follows section 4.1.2.2 of ISO 8601:2004 (YYYY-MM-DD);
  - `find_picture_by_filename` returns the first picture with that file name, or raises
    StopIteration;
  - `highlights_on_date` keeps the highlights that start on the date, in order;
  - `to_date` defaults to `from_date` after construction.

Helpers that are not source operations:
- `Outcomes`: `Option`, `Result` and the Python exceptions that escape;
- `Seqs`: a generic order-preserving `Filter` and a first-match search `FirstIndex`, with
  their lemmas and a few facts about prefixes and suffixes;
- `Geo`: coordinates, an unknown field order of the `Coordinates` class, and the
  uninterpreted geodesic distance.

Foreign computations are parameters, not functions of the model:
- the geodesic distance is any function that is never negative (`Geo.Geodesic`);
- MD5 is any `string -> string` function (`PictureResizer.Digest`). Where the layout of
  the cache matters, the lemmas require that its value is 32 hexadecimal digits
  (`HexKeyed`);
- the PIL thumbnail-and-save step is any function of the source bytes, the 150×150 box and
  the path saved at (`PictureResizer.Renderer`). `save` picks the encoder from that path's
  extension. Lemmas that need this rule require it as `FormatFromExtension`: two paths
  with the same extension encode every thumbnail alike (`SameEncoding`);
- what the EXIF reader finds in a file is an input `ExifImage`;
- the order of the unseen `Coordinates` class's positional arguments is an input
  `CoordinatesLayout`.

## Model

| member | source | states |
|---|---|---|
| CoordinatesUtils.Unrounded | src/travel_log/utils/coordinates_utils.py:12-19 | the value is degrees + minutes/60 + seconds/3600, with all three parts negated exactly when the reference is "S" or "W" |
| CoordinatesUtils.RoundMicro | src/travel_log/utils/coordinates_utils.py:21 | the result is an integer nearest to x·10⁶, and on an exact tie it is the even one (Python's round to 6 places) |
| CoordinatesUtils.RoundedMicroUnique | src/travel_log/utils/coordinates_utils.py:21 | at most one integer meets the rounding rule, so the rounding is well defined |
| CoordinatesUtils.RoundMicroNegate | src/travel_log/utils/coordinates_utils.py:16-21 | rounding commutes with negation (half-to-even is symmetric about zero) |
| CoordinatesUtils.Round6 | src/travel_log/utils/coordinates_utils.py:21 | `round(x, 6)` is a whole number of millionths, namely the one nearest to x, with ties going to the even one |
| CoordinatesUtils.ConvertDegreesToDecimal | src/travel_log/utils/coordinates_utils.py:1-21 | the result is the signed decimal value rounded half-to-even to six places: a whole number of millionths nearest to it, so at most half a micro-degree away |
| CoordinatesUtils.NegatingReferenceNegates | src/travel_log/utils/coordinates_utils.py:16-21 | for the same triple, "S" or "W" gives exactly the negative of what any other reference gives, after rounding too |
| CoordinatesUtils.NonNegatingReferences | src/travel_log/utils/coordinates_utils.py:16 | every reference other than exactly "S" or "W" ("E", lower-case letters, "") gives the same value as "N" |
| CoordinatesUtils.ZeroIsZero | src/travel_log/utils/coordinates_utils.py:12-21 | (0, 0, 0) converts to 0 under every reference |
| CoordinatesUtils.LongitudeExample | test/utils/test_coordinates.py:23-29 | (18, 16, 16) with "E" converts to exactly 18.271111 |
| CoordinatesUtils.LatitudeExample | test/utils/test_coordinates.py:26-30 | (62, 56, 7) with "N" converts to exactly 62.935278 |
| Geo.Positional | src/travel_log/assets/pictures/picture.py:41 | whatever the field order of `Coordinates`, the two positional arguments become its latitude and longitude |
| Pictures.Get | src/travel_log/assets/pictures/picture.py:30 | `image.get(attribute)`: the reader's value for a present tag, None for an absent one |
| Pictures.ExifDict | src/travel_log/assets/pictures/picture.py:24-30 | the map has exactly one key per attribute the reader lists, bound to the value the reader returns for it (None when absent) |
| Pictures.ConvertExif | src/travel_log/assets/pictures/picture.py:38-39 | converting an EXIF value succeeds exactly when it is a triple; any other value raises an error that `except KeyError` does not catch (TypeError for None or a number, IndexError for a short text; the model merges them) |
| Pictures.CoordinatesFromExif | src/travel_log/assets/pictures/picture.py:32-43 | None exactly when one of the four GPS keys is missing before a malformed triple is reached; a position exactly when all four keys are present with triples; the position is built positionally from (longitude, latitude) with crossed references; any other case raises TypeError |
| Pictures.LongitudeFirstReading | src/travel_log/assets/pictures/picture.py:38-41 | with longitude stored first, the longitude comes from `gps_longitude` signed by `gps_latitude_ref`, and the latitude from `gps_latitude` signed by `gps_longitude_ref` |
| Pictures.CrossedReferences | src/travel_log/assets/pictures/picture.py:38-39 | for a picture tagged "S" and "E", the longitude is negated and the latitude is left unsigned |
| Pictures.Picture.Exif | src/travel_log/assets/pictures/picture.py:24-30 | returns the EXIF map of the file; it is read once, and later calls return the memoised map without reading again |
| Pictures.Picture.Coordinates | src/travel_log/assets/pictures/picture.py:32-43 | returns the coordinates derived from the file's EXIF map; they are derived at most once, and a raised error memoises nothing |
| Pictures.Picture.RemoveExifCoordinates | src/travel_log/models/privacy_zone.py:60 | records one call of the (unseen) method that strips the EXIF position |
| Assets.AllowedExtensions | src/travel_log/assets/pictures/picture.py:11-22 | pictures allow exactly "jpg" and "jpeg"; tracks allow exactly "gpx" (track.py:5, 14-16) |
| Assets.Extension | src/travel_log/assets/abstract_asset.py:34 | the extension is the longest suffix without a `.`, preceded by a `.` when shorter than the name, so a name without `.` is its own extension |
| Paths.Basename | src/travel_log/assets/abstract_asset.py:41-43 | the file name (`os.path.basename`) is the longest suffix of the path without a `/`: it holds no `/` and is preceded by one when shorter than the path |
| Assets.ListingAdmits | src/travel_log/assets/abstract_asset.py:33-37 | one more listing entry with an allowed extension appends exactly its asset, at `join(folder, name)`, to the assets of the entries before it |
| Assets.ListingSkips | src/travel_log/assets/abstract_asset.py:33-36 | one more listing entry with any other extension leaves the kept names unchanged |
| Assets.FromFolderPath | src/travel_log/assets/abstract_asset.py:29-39 | the loop builds one asset at `join(folder, name)` for each listing name whose extension is allowed (compared case-sensitively), in listing order; the result is never longer than the listing |
| Assets.DiscoveredFilenames | src/travel_log/assets/abstract_asset.py:33-43 | the kept names are a subsequence of the listing; a name is kept exactly when its extension is allowed; each asset's `filename` is the name it came from |
| Assets.DiscoveredTracksAreGpx | src/travel_log/assets/tracks/track.py:5-16 | every track asset the discovery yields has a file name whose extension is exactly "gpx" |
| Paths.Join | src/travel_log/assets/abstract_asset.py:37 | `os.path.join`: an absolute second part replaces the first; otherwise the first part is a prefix of the result |
| Paths.Parent | src/travel_log/assets/pictures/picture_resizer.py:45 | `Path(p).parent` on a plain path: the prefix before the last `/`, or "" when there is none |
| Assets.Filename | src/travel_log/assets/abstract_asset.py:41-43 | the `filename` property: a suffix of the path without any `/` |
| Paths.BasenameJoin | src/travel_log/assets/abstract_asset.py:37-43 | for a name without `/`, the base name of `join(folder, name)` is the name |
| Paths.ParentJoin | src/travel_log/assets/pictures/picture_resizer.py:38-45 | for a non-empty folder not ending in `/`, the parent of `join(folder, name)` is the folder |
| Paths.JoinEndsWith | src/travel_log/assets/pictures/picture_resizer.py:38 | `join(a, b)` ends with b |
| PrivacyZones.Center | src/travel_log/models/privacy_zone.py:25-27 | the `coordinates` property: the point with the zone's `lat` as latitude and `lng` as longitude, built by keyword |
| PrivacyZones.IsPointInside | src/travel_log/models/privacy_zone.py:29-35 | a point nearer than the radius is inside, one at exactly the radius is inside (the boundary counts), one farther is outside; a zone with a negative radius contains nothing; the centre is inside exactly when the radius is not negative |
| PrivacyZones.LargerZoneContains | src/travel_log/models/privacy_zone.py:35 | a point inside a zone is inside every zone with the same centre and a radius at least as large |
| PrivacyZones.PictureInside | src/travel_log/models/privacy_zone.py:37-41 | a picture without coordinates is never inside; one with coordinates is inside exactly when its point is; an error from the coordinates escapes |
| PrivacyZones.FirstContaining | src/travel_log/models/privacy_zone.py:57-61 | the found zone contains the point and no earlier zone does; none found means no zone contains it |
| PrivacyZones.RedactPicture | src/travel_log/models/privacy_zone.py:57-63 | the outcome is false with no zones or without coordinates, an escaped error otherwise if the coordinates raise, and with coordinates it is true exactly when some zone contains the picture |
| PrivacyZones.ZonesConsulted | src/travel_log/models/privacy_zone.py:57-61 | the walk asks every zone when the picture has no coordinates, one zone when they raise, and otherwise the zones up to and including the first that contains the picture |
| PrivacyZones.IsPictureInside | src/travel_log/models/privacy_zone.py:37-41 | the method's outcome is `PictureInside` of the picture's coordinates, and the coordinates stay memoised exactly when they were derived without error |
| PrivacyZones.ApplyManyOnProcessedPicture | src/travel_log/models/privacy_zone.py:43-63 | the picture is made writable; the outcome is `RedactPicture`; the zones consulted are `ZonesConsulted`; the EXIF position is stripped once if the outcome is true and never otherwise |
| PrivacyZones.RedactSegments | src/travel_log/models/privacy_zone.py:79-85 | one redacted segment per segment, position by position |
| PrivacyZones.RedactTracks | src/travel_log/models/privacy_zone.py:78-85 | one redacted track per track, position by position |
| PrivacyZones.RedactDocument | src/travel_log/models/privacy_zone.py:78-85 | the number of tracks and of segments per track is kept, even when a segment becomes empty; each segment holds exactly its points outside the zone, in order |
| PrivacyZones.RemoveFirst | src/travel_log/models/privacy_zone.py:84 | `list.remove` shortens the list by exactly one |
| PrivacyZones.RemoveFirstAfter | src/travel_log/models/privacy_zone.py:84 | removing a point that does not occur earlier in the list drops exactly that occurrence |
| PrivacyZones.KeepStep | src/travel_log/models/privacy_zone.py:80-83 | a turn of the loop over the copied list on a point outside the zone keeps the point: "points seen so far filtered, the rest untouched" moves one point on, and the kept count grows by one |
| PrivacyZones.RemoveStep | src/travel_log/models/privacy_zone.py:80-85 | a turn on a point inside the zone: the point is still in the list, `remove` drops that very occurrence (no kept point equals it), and the state moves one point on with the kept count unchanged |
| PrivacyZones.RemovePointsInside | src/travel_log/models/privacy_zone.py:80-85 | removing in place while iterating over a copy leaves exactly the points outside the zone, in order, and counts the removals as the drop in length |
| PrivacyZones.ProcessSegments | src/travel_log/models/privacy_zone.py:79-85 | the segments become their redactions, and the count of removals is the drop in their total number of points |
| PrivacyZones.ProcessTracks | src/travel_log/models/privacy_zone.py:78-85 | the tracks become their redactions, and the count of removals is the drop in their total number of points |
| PrivacyZones.ProcessTrack | src/travel_log/models/privacy_zone.py:65-93 | the track's document becomes its redaction; the same track is returned; `data` is reassigned exactly when the point count dropped |
| PrivacyZones.SegmentsPointsRedacted | src/travel_log/models/privacy_zone.py:78-85 | the points of the redacted segments, read in order, are those of the original segments filtered by the zone |
| PrivacyZones.TracksPointsRedacted | src/travel_log/models/privacy_zone.py:78-85 | the points of the redacted tracks, read in order, are those of the original tracks filtered by the zone |
| PrivacyZones.DocumentPointsRedacted | src/travel_log/models/privacy_zone.py:76-85 | the redacted document's points are the original ones outside the zone, in order, and there are never more of them |
| PrivacyZones.RedactDocumentIdempotent | src/travel_log/models/privacy_zone.py:78-85 | applying the same zone a second time removes nothing |
| PrivacyZones.RedactAll | src/travel_log/models/privacy_zone.py:100-101 | the zones applied one after another in list order; no zones leave the document as it is, and the number of tracks never changes |
| PrivacyZones.OutsideAll | src/travel_log/models/privacy_zone.py:100-101 | the points that survive the loop: those inside none of the zones |
| PrivacyZones.FilterOutsideAllSnoc | src/travel_log/models/privacy_zone.py:100-101 | filtering by the zones before the last, then by the last, equals filtering by all of them |
| PrivacyZones.RedactAllShape | src/travel_log/models/privacy_zone.py:100-101 | after all zones, the document has as many tracks as before, and each track as many segments |
| PrivacyZones.RedactAllSegment | src/travel_log/models/privacy_zone.py:100-101 | after all zones, each segment holds exactly its points that lie outside every zone, in order |
| PrivacyZones.RedactAllPoints | src/travel_log/models/privacy_zone.py:100-101 | with no short-circuit over the zones, the final points are exactly the original points outside every zone, in order |
| PrivacyZones.RedactAllShrinksIffInside | src/travel_log/models/privacy_zone.py:100-103 | the point count drops exactly when some point of the track lies inside some zone |
| PrivacyZones.ApplyManyOnProcessedTrack | src/travel_log/models/privacy_zone.py:95-103 | the track is made writable and every zone is applied in turn; the result is true exactly when the point count dropped; the redacted document is written back exactly then |
| Tracks.Track.SetData | src/travel_log/models/privacy_zone.py:91 | assigning `data` stores the document and records the assignment |
| Tracks.Track.PersistData | src/travel_log/models/privacy_zone.py:103 | returns whether `data` was assigned, and writes the document back exactly then |
| PictureResizer.CopyFile | src/travel_log/assets/pictures/picture_resizer.py:41 | the copy succeeds exactly when the source exists and the destination's directory exists; then the destination holds the source's content; otherwise FileNotFoundError and no change |
| PictureResizer.MakeDirs | src/travel_log/assets/pictures/picture_resizer.py:45 | without `exist_ok`, succeeds exactly when nothing exists at that path and adds the directory; otherwise FileExistsError and no change |
| PictureResizer.RenderThumbnail | src/travel_log/assets/pictures/picture_resizer.py:54-65 | succeeds exactly when the picture exists and the target's directory exists; then the target holds the picture rendered into the 150×150 box and encoded for the target's path, and nothing else changes; otherwise FileNotFoundError and no change |
| PictureResizer.PrimitivesKeepWellFormed | src/travel_log/assets/pictures/picture_resizer.py:41-65 | copying, making a directory and rendering keep every file inside an existing directory |
| PictureResizer.HashKey | src/travel_log/assets/pictures/picture_resizer.py:35 | the text hashed: the picture's path joined with its file name |
| PictureResizer.CacheDir | src/travel_log/assets/pictures/picture_resizer.py:36-38 | the hash directory: the hex digest of the key joined under the cache folder |
| PictureResizer.CachePath | src/travel_log/assets/pictures/picture_resizer.py:38 | the cache file: the picture's file name inside the hash directory |
| PictureResizer.UsesCache | src/travel_log/assets/pictures/picture_resizer.py:34 | the cache is used exactly when the folder is given and not empty (Python truthiness) |
| PictureResizer.GenerateThumbnailEffect | src/travel_log/assets/pictures/picture_resizer.py:34-52 | the outcome and new filesystem of a call: a render into the output without a cache, the cache branch otherwise |
| PictureResizer.CachedThumbnailEffect | src/travel_log/assets/pictures/picture_resizer.py:40-52 | the cache branch: a successful copy out of the cache ends the call; a FileNotFoundError leads to makedirs, a render into the cache, a copy out, and the final render into the output, stopping at the first error |
| PictureResizer.HashDirLayout | src/travel_log/assets/pictures/picture_resizer.py:35-38 | a name without `/` placed in a 32-hex-digit directory under a non-empty folder is the last component of the path, that directory is its parent, and the path differs from the directory |
| PictureResizer.CachePathLayout | src/travel_log/assets/pictures/picture_resizer.py:35-38 | the cache file keeps the picture's own file name, its directory is the hash directory under the cache folder, and it is distinct from that directory |
| PictureResizer.JoinedDigestsAgree | src/travel_log/assets/pictures/picture_resizer.py:38 | a 32-digit digest can be read back off the end of the joined path |
| PictureResizer.CachePathsDistinct | src/travel_log/assets/pictures/picture_resizer.py:35-38 | pictures whose keys hash differently never share a cache file, even with equal file names |
| PictureResizer.CachedMissSteps | src/travel_log/assets/pictures/picture_resizer.py:44-52 | for any cache file, a miss on a fresh directory makes the directory, stores the thumbnail encoded for the cache file in the cache, copies it out, and then renders the output again, encoded for the output |
| PictureResizer.UncachedRendersToOutput | src/travel_log/assets/pictures/picture_resizer.py:34-52 | with no cache folder (None or ""), the thumbnail is rendered straight into the output and nothing else changes |
| PictureResizer.CacheHit | src/travel_log/assets/pictures/picture_resizer.py:40-43 | when the cache file and the output directory exist, the output receives the cached content and nothing else changes, even if the picture is gone |
| PictureResizer.CacheMiss | src/travel_log/assets/pictures/picture_resizer.py:44-52 | a miss on a fresh hash directory succeeds; it adds that directory, stores the thumbnail in the cache file, and leaves the output holding the picture re-rendered for the output's path; a picture that is its own output is thumbnailed twice |
| PictureResizer.CacheFileFormat | src/travel_log/assets/pictures/picture_resizer.py:17-18 | the cache file has the picture's file name, so it has the picture's extension, and an output with that extension is encoded like the cache file |
| PictureResizer.MissOutputMatchesCache | src/travel_log/assets/pictures/picture_resizer.py:44-52 | after a miss (output not the picture) the output equals the cache file exactly when the picture's thumbnail is encoded alike for the two paths |
| PictureResizer.MissWithPictureExtensionMatchesCache | src/travel_log/assets/pictures/picture_resizer.py:17-18 | so, as the docstring intends (the output keeps the picture's file name), after a miss the output holds what the cache holds |
| PictureResizer.OtherFormatOutputIsOverwritten | src/travel_log/assets/pictures/picture_resizer.py:40-65 | an output encoded differently from the cache file is not stable: after a miss it holds the thumbnail encoded for itself, and the next call, a hit, replaces it with the cache file's encoding |
| PictureResizer.StaleHashDirFails | src/travel_log/assets/pictures/picture_resizer.py:45 | a hash directory without its cache file makes the call fail with FileExistsError on that directory and change nothing |
| PictureResizer.FailedRenderLeavesHashDir | src/travel_log/assets/pictures/picture_resizer.py:45-47 | a miss whose picture is missing fails with FileNotFoundError but leaves the new hash directory behind |
| PictureResizer.CachedHitWithoutOutputDir | src/travel_log/assets/pictures/picture_resizer.py:40-45 | for any cache file, a failed copy is taken for a miss and `makedirs` then fails on the existing directory |
| PictureResizer.HitWithoutOutputDirFails | src/travel_log/assets/pictures/picture_resizer.py:40-45 | a cached picture whose output directory is missing fails with FileExistsError on the hash directory, not with FileNotFoundError, and nothing changes |
| PictureResizer.CachedFrame | src/travel_log/assets/pictures/picture_resizer.py:40-52 | for any cache file, only the output and that file are written, and only its directory is made |
| PictureResizer.GenerateThumbnailFrame | src/travel_log/assets/pictures/picture_resizer.py:34-65 | only the output file, the cache file and the hash directory can change; every other file, and the picture when it is neither of those two, keeps its content |
| PictureResizer.CachedKeepsWellFormed | src/travel_log/assets/pictures/picture_resizer.py:40-52 | for any cache file, the cache branch keeps every file inside an existing directory |
| PictureResizer.GenerateThumbnailKeepsWellFormed | src/travel_log/assets/pictures/picture_resizer.py:34-65 | every file stays inside an existing directory, whatever the outcome |
| PictureResizer.CachedSuccessStores | src/travel_log/assets/pictures/picture_resizer.py:40-52 | after a successful cached call, the cache file and the output directory exist, and an output encoded like the cache file holds the cached content |
| PictureResizer.RepeatedCallIsStable | src/travel_log/assets/pictures/picture_resizer.py:34-52 | after a success, the same call succeeds again and changes nothing, provided the output is not the picture and, with a cache folder, the cache file is not the picture and the output is encoded like the cache file |
| PictureResizer.RepeatedCallWithPictureExtensionIsStable | src/travel_log/assets/pictures/picture_resizer.py:17-18 | the same holds when the output has the picture's extension, as when the caller passes the picture's own file name |
| PictureResizer.FileSystem.Apply | src/travel_log/assets/pictures/picture_resizer.py:41-65 | the filesystem takes the state of a step, and the step's outcome is returned |
| PictureResizer.FileSystem.CopyFileTo | src/travel_log/assets/pictures/picture_resizer.py:41 | the filesystem changes as `CopyFile` says |
| PictureResizer.FileSystem.MakeDirsAt | src/travel_log/assets/pictures/picture_resizer.py:45 | the filesystem changes as `MakeDirs` says |
| PictureResizer.FileSystem.RenderThumbnailTo | src/travel_log/assets/pictures/picture_resizer.py:54-65 | the filesystem changes as `RenderThumbnail` says |
| PictureResizer.GenerateThroughCache | src/travel_log/assets/pictures/picture_resizer.py:40-52 | the statements of the cache branch and the render after it change the filesystem as the cache-branch function says, stopping at the first exception |
| PictureResizer.GenerateThumbnail | src/travel_log/assets/pictures/picture_resizer.py:14-52 | the outcome and the new filesystem are those of `GenerateThumbnailEffect`, which the lemmas above characterise |
| Dates.Digits | src/travel_log/models/trip_day.py:23-25 | the zero-padded field has exactly the requested width and only digits |
| Dates.DigitsRoundTrip | src/travel_log/models/trip_day.py:23-25 | a number below 10^width reads back from its zero-padded digits |
| Dates.DateIso | src/travel_log/models/trip_day.py:23-25 | the text is 10 characters long, with `-` at positions 4 and 7 and digits everywhere else |
| Dates.ParseIso | src/travel_log/models/trip_day.py:23-25 | whatever it reads is a valid calendar date |
| Dates.IsoRoundTrip | src/travel_log/models/trip_day.py:23-25 | reading back the YYYY-MM-DD text of a date gives that date |
| Dates.IsoInjective | src/travel_log/models/trip_day.py:23-25 | distinct dates render to distinct texts |
| TripDays.DateIso | src/travel_log/models/trip_day.py:23-25 | the day's date as YYYY-MM-DD, which reads back as that date |
| Seqs.FirstIndex | src/travel_log/models/trip_day.py:28 | the position found holds an element passing the test and no earlier one does; the length of the list means that none does |
| TripDays.FindPictureByFilename | src/travel_log/models/trip_day.py:27-28 | StopIteration exactly when no picture has the file name; otherwise a picture of the day with that name, with none earlier in the list |
| TripDays.NewDayIsEmpty | src/travel_log/models/trip_day.py:17-21 | a day built from its date alone has no pictures, tracks or metadata and no summary, so every lookup raises StopIteration |
| Seqs.FirstIndexAppend | src/travel_log/models/trip_day.py:28 | a match found in a list is found at the same place after more elements are appended |
| TripDays.FindIgnoresLaterPictures | src/travel_log/models/trip_day.py:27-28 | appending pictures never changes which picture a successful lookup returns |
| Trips.HighlightsOnDate | src/travel_log/models/trip.py:21-24 | only highlights of the trip that start on the date are returned, and never more than the trip has |
| Trips.HighlightsOnDateExact | src/travel_log/models/trip.py:24 | each highlight starting on the date is returned as many times as the trip lists it; no other highlight is returned; the trip's order is kept |
| Trips.MultiDayHighlightOnStartOnly | src/travel_log/models/trip.py:22-24 | `to_date` is ignored: a listed highlight is returned on a date exactly when it starts on that date |
| Trips.HighlightsOnDatePartition | src/travel_log/models/trip.py:21-24 | no highlight is returned for two different dates; the whole list is returned exactly when every highlight starts on the date |
| Trips.NewTripIsEmpty | src/travel_log/models/trip.py:17-19 | a trip built from its title and days has no highlights and no summary, so every date has no highlights |
| Highlights.Highlight.constructor | src/travel_log/models/highlight.py:12-21 | name, start date and summary are kept as given; the end date is kept when given and is the start date otherwise; it is never None afterwards |
| Highlights.Highlight.PostInit | src/travel_log/models/highlight.py:19-21 | a missing end date becomes the start date, and a given one is kept |

## Left out

- The geodesic distance (geopy's ellipsoidal `geodesic`) is not computed. It is a parameter known only to be non-negative, so no claim depends on its values. The distance test results in test/models/test_privacy_zone.py, which depend on real coordinates, are not reproduced.
- Floating point: coordinates and distances are exact reals. `round` is modelled as half-to-even on the exact value, not on the binary double the source rounds.
- Reading EXIF tags, parsing and writing GPX files, the PIL resize and save, and MD5 are uninterpreted parameters or inputs. Render failures other than a missing file (a file that is not an image, say) are not modelled.
- PictureResizer.SaveFormat: PIL lower-cases the extension before choosing the encoder and raises ValueError for an extension it does not know. The model keys the encoding on the exact extension, so `FormatFromExtension` assumes less than PIL guarantees, and the unknown-extension error is not modelled.
- Pictures.Picture.RemoveExifCoordinates: its definition is not part of this model. Only the number of calls is recorded, not the change it makes to the file.
- Tracks.Track.PersistData: its definition is not part of this model. It returns the "data was assigned" flag and records the write. Whether it clears the flag, and the file format written, are not modelled.
- `is_read_only` has no definition in the modelled files. Its default is not modelled, and no guard on it is assumed. The operations only ever set it to false.
- PrivacyZones.ProcessTrack: the source mutates the segments' point lists of the document the track already holds, and then assigns the same object back to `data`. The model replaces the document value and records the assignment when a point was removed. The aliasing itself is not modelled.
- `list.remove` compares points by value, and track points are values here. A point inside the zone never stays among the points already kept, so the first equal point `remove` finds is always the current one (`RemoveStep`); object identity of points is not modelled.
- The `Coordinates` class is not part of this model, and so neither is its field order: it is a parameter (`CoordinatesLayout`). Its truthiness is taken to be always true, so only a missing value (None) counts as "no coordinates".
- `os.makedirs` also creates missing intermediate directories. The model records only the leaf directory. A file may be written into a directory whose parent was never recorded, because a directory's existence is all that writing checks.
- `shutil.copyfile` raising SameFileError (output path equal to the cache file) is not modelled: such a copy succeeds and changes nothing.
- Paths are plain strings. `os.path.join` is modelled by its POSIX rules. Normalisation, `..`, symbolic links and the `pathlib.Path(...).parent` treatment of trailing slashes are not modelled.
- Printing, logging and the website generator, parsers and `main` script around the core are not modelled.
- The metadata of a trip day is a map from strings to strings. The source allows any mapping.
- Dates are only those `datetime.date` can hold (years 1 to 9999). The model does not compare dates other than by equality.
