/** A picture asset: its EXIF tag map and the GPS coordinates derived from it, each
    computed on first use and then kept. */
module Pictures {
  import opened Outcomes
  import opened Geo
  import opened CoordinatesUtils
  import Assets

  /** A value the EXIF reader hands back for one attribute. */
  datatype ExifValue =
    | Triple(dms: Dms)      // a GPS (degrees, minutes, seconds) triple
    | Text(text: string)    // a string such as a GPS reference letter
    | NoValue               // Python's None
    | OtherValue            // any other number or structure

  /** What the EXIF reader finds in a file: the attribute names `list_all()` reports and the
      values `get` returns. Reading the file itself is outside this model. */
  datatype ExifImage = ExifImage(listed: seq<string>, tags: map<string, ExifValue>)

  /** `image.get(attribute)`: None for an attribute the file does not carry. */
  function Get(image: ExifImage, attribute: string): ExifValue
  {
    if attribute in image.tags then image.tags[attribute] else NoValue
  }

  type ExifMap = map<string, ExifValue>

  /** The dict comprehension of the `exif` property: one entry per listed attribute. */
  function ExifDict(image: ExifImage): (m: ExifMap)
    ensures m.Keys == set a | a in image.listed
    ensures forall a :: a in m ==> m[a] == Get(image, a)
  {
    map a | a in image.listed :: Get(image, a)
  }

  const GpsLongitude := "gps_longitude"
  const GpsLatitude := "gps_latitude"
  const GpsLongitudeRef := "gps_longitude_ref"
  const GpsLatitudeRef := "gps_latitude_ref"

  /** A reference that is not a string never equals "S" or "W", exactly as the empty string. */
  function ReferenceText(v: ExifValue): string
  {
    if v.Text? then v.text else ""
  }

  /** `convert_degrees_to_decimal(dms, reference)` on EXIF values: indexing anything but a
      triple raises a TypeError (or an IndexError: both escape as the same failure here). */
  function ConvertExif(dms: ExifValue, reference: ExifValue): (r: Result<real>)
    ensures r.Ok? <==> dms.Triple?
    ensures r.Ok? ==> r.value == ConvertDegreesToDecimal(dms.dms, ReferenceText(reference))
    ensures r.Err? ==> r.error == TypeError
  {
    if dms.Triple? then Ok(ConvertDegreesToDecimal(dms.dms, ReferenceText(reference))) else Err(TypeError)
  }

  /** The `coordinates` property computed from an EXIF map, in the order Python evaluates it:
      the longitude triple and the latitude reference are looked up and converted before the
      latitude triple and the longitude reference are looked up. A missing key gives None;
      a malformed triple raises. The references are crossed as the source has them:
      `gps_longitude` is signed by `gps_latitude_ref` and `gps_latitude` by
      `gps_longitude_ref`. The result is `Coordinates(longitude, latitude)` built positionally. */
  function CoordinatesFromExif(exif: ExifMap, layout: CoordinatesLayout): (r: Result<Option<Coordinates>>)
    ensures r == Ok(None) <==>
              GpsLongitude !in exif || GpsLatitudeRef !in exif
              || (exif[GpsLongitude].Triple? && (GpsLatitude !in exif || GpsLongitudeRef !in exif))
    ensures r.Ok? && r.value.Some? <==>
              && GpsLongitude in exif && GpsLatitudeRef in exif && GpsLatitude in exif && GpsLongitudeRef in exif
              && exif[GpsLongitude].Triple? && exif[GpsLatitude].Triple?
    ensures r.Ok? && r.value.Some? ==>
              r.value.value == Positional(layout,
                ConvertDegreesToDecimal(exif[GpsLongitude].dms, ReferenceText(exif[GpsLatitudeRef])),
                ConvertDegreesToDecimal(exif[GpsLatitude].dms, ReferenceText(exif[GpsLongitudeRef])))
    ensures r.Err? ==> r.error == TypeError
  {
    if GpsLongitude !in exif || GpsLatitudeRef !in exif then Ok(None)
    else
      match ConvertExif(exif[GpsLongitude], exif[GpsLatitudeRef])
      case Err(e) => Err(e)
      case Ok(longitude) =>
        if GpsLatitude !in exif || GpsLongitudeRef !in exif then Ok(None)
        else
          match ConvertExif(exif[GpsLatitude], exif[GpsLongitudeRef])
          case Err(e) => Err(e)
          case Ok(latitude) => Ok(Some(Positional(layout, longitude, latitude)))
  }

  /** Whatever the order of the `Coordinates` fields, the picture lies at the two converted
      values; with the longitude stored first, the longitude is the `gps_longitude` value. */
  lemma LongitudeFirstReading(exif: ExifMap)
    requires CoordinatesFromExif(exif, LongitudeFirst).Ok? && CoordinatesFromExif(exif, LongitudeFirst).value.Some?
    ensures var c := CoordinatesFromExif(exif, LongitudeFirst).value.value;
            && c.longitude == ConvertDegreesToDecimal(exif[GpsLongitude].dms, ReferenceText(exif[GpsLatitudeRef]))
            && c.latitude == ConvertDegreesToDecimal(exif[GpsLatitude].dms, ReferenceText(exif[GpsLongitudeRef]))
  {
  }

  /** The references act on the other axis: a picture taken south of the equator and east
      of Greenwich ("S", "E") gets a negated longitude and an unsigned latitude. */
  lemma CrossedReferences(exif: ExifMap)
    requires CoordinatesFromExif(exif, LongitudeFirst).Ok? && CoordinatesFromExif(exif, LongitudeFirst).value.Some?
    requires exif[GpsLatitudeRef] == Text("S") && exif[GpsLongitudeRef] == Text("E")
    ensures var c := CoordinatesFromExif(exif, LongitudeFirst).value.value;
            && c.longitude == -ConvertDegreesToDecimal(exif[GpsLongitude].dms, "E")
            && c.latitude == ConvertDegreesToDecimal(exif[GpsLatitude].dms, "N")
  {
    LongitudeFirstReading(exif);
    NegatingReferenceNegates(exif[GpsLongitude].dms, "S", "E");
  }

  /** A picture object. `stored` stands for the EXIF content of the file at `path`;
      `layout` for the unknown field order of the `Coordinates` class. */
  class Picture {
    const path: string
    const stored: ExifImage
    const layout: CoordinatesLayout

    /** The `cached_property` slots. */
    var exifCache: Option<ExifMap>
    var coordinatesCache: Option<Option<Coordinates>>

    /** Set by callers before a destructive operation; its default is not part of the model. */
    var isReadOnly: bool

    /** How many times `remove_exif_coordinates` was called on this object. */
    var coordinateRemovals: nat

    /** How many times each cached value was computed and stored. */
    ghost var exifReads: nat
    ghost var coordinateDerivations: nat

    /** Each cache, once filled, holds the value its property computes, and was filled once. */
    ghost predicate Valid()
      reads this
    {
      && exifReads == (if exifCache.Some? then 1 else 0)
      && coordinateDerivations == (if coordinatesCache.Some? then 1 else 0)
      && (exifCache.Some? ==> exifCache.value == ExifDict(stored))
      && (coordinatesCache.Some? ==>
            exifCache.Some? && Ok(coordinatesCache.value) == CoordinatesFromExif(ExifDict(stored), layout))
    }

    /** The coordinates the property yields (or the error it raises) for this picture. */
    ghost function Located(): Result<Option<Coordinates>>
      reads this
    {
      CoordinatesFromExif(ExifDict(stored), layout)
    }

    constructor (path: string, stored: ExifImage, layout: CoordinatesLayout)
      ensures Valid()
      ensures this.path == path && this.stored == stored && this.layout == layout
      ensures exifCache == None && coordinatesCache == None && coordinateRemovals == 0
    {
      this.path := path;
      this.stored := stored;
      this.layout := layout;
      exifCache := None;
      coordinatesCache := None;
      coordinateRemovals := 0;
      exifReads := 0;
      coordinateDerivations := 0;
    }

    /** The `filename` property. */
    function Filename(): string
    {
      Assets.Filename(path)
    }

    /** The `exif` property: read on first use, returned from the cache afterwards. */
    method Exif() returns (m: ExifMap)
      requires Valid()
      modifies this`exifCache, this`exifReads
      ensures Valid()
      ensures m == ExifDict(stored)
      ensures exifCache == Some(m)
      ensures exifReads == 1
      ensures old(exifCache).Some? ==> exifReads == old(exifReads)
    {
      if exifCache.Some? {
        m := exifCache.value;
      } else {
        m := ExifDict(stored);
        exifCache := Some(m);
        exifReads := exifReads + 1;
      }
    }

    /** The `coordinates` property: derived on first successful use, returned from the cache
        afterwards. A raised error leaves the cache empty, as `cached_property` does. */
    method Coordinates() returns (r: Result<Option<Coordinates>>)
      requires Valid()
      modifies this`exifCache, this`exifReads, this`coordinatesCache, this`coordinateDerivations
      ensures Valid()
      ensures r == Located()
      ensures coordinatesCache == if r.Ok? then Some(r.value) else None
      ensures exifReads == 1 && coordinateDerivations <= 1
      ensures old(coordinatesCache).Some? ==>
                coordinatesCache == old(coordinatesCache) && exifCache == old(exifCache)
    {
      if coordinatesCache.Some? {
        r := Ok(coordinatesCache.value);
      } else {
        var exif := Exif();
        r := CoordinatesFromExif(exif, layout);
        if r.Ok? {
          coordinatesCache := Some(r.value);
          coordinateDerivations := coordinateDerivations + 1;
        }
      }
    }

    /** `remove_exif_coordinates()`: not part of the shown code; modelled only as a recorded call. */
    method RemoveExifCoordinates()
      modifies this`coordinateRemovals
      ensures coordinateRemovals == old(coordinateRemovals) + 1
    {
      coordinateRemovals := coordinateRemovals + 1;
    }
  }
}
