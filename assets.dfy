/** Asset discovery: listing a folder and keeping the files whose extension the asset kind
    allows, and the file name of an asset. */
module Assets {
  import opened Paths
  import opened Seqs

  /** The two concrete asset classes. */
  datatype AssetKind = PictureKind | TrackKind

  const PicturesAllowedExtensions: seq<string> := ["jpg", "jpeg"]
  const TracksAllowedExtensions: seq<string> := ["gpx"]

  /** `allowed_extensions()` of each asset class. */
  function AllowedExtensions(kind: AssetKind): (r: seq<string>)
    ensures kind == PictureKind ==> forall e :: e in r <==> e == "jpg" || e == "jpeg"
    ensures kind == TrackKind ==> forall e :: e in r <==> e == "gpx"
  {
    match kind
    case PictureKind => PicturesAllowedExtensions
    case TrackKind => TracksAllowedExtensions
  }

  /** `filename.split('.')[-1]`: the text after the last '.', or the whole name without one. */
  function Extension(filename: string): (r: string)
    ensures '.' !in r
    ensures |r| <= |filename| && r == filename[|filename| - |r|..]
    ensures |r| < |filename| ==> filename[|filename| - |r| - 1] == '.'
    ensures '.' !in filename ==> r == filename
  {
    AfterLast(filename, '.')
  }

  /** An asset as `from_folder_path` creates it: its class and its path. */
  datatype Asset = Asset(kind: AssetKind, path: string)

  /** The `filename` property: the basename of the path. */
  function Filename(path: string): (r: string)
    ensures '/' !in r
    ensures |r| <= |path| && r == path[|path| - |r|..]
  {
    Basename(path)
  }

  /** The listing filter: a name is kept when its extension is allowed, compared exactly. */
  function Admits(kind: AssetKind): string -> bool
  {
    name => Extension(name) in AllowedExtensions(kind)
  }

  /** The asset of `kind` for listing entry `name` of `folder`. */
  function AssetAt(kind: AssetKind, folder: string, name: string): Asset
  {
    Asset(kind, Join(folder, name))
  }

  function AssetsAt(kind: AssetKind, folder: string, names: seq<string>): (r: seq<Asset>)
    ensures |r| == |names|
    ensures forall i :: 0 <= i < |names| ==> r[i] == AssetAt(kind, folder, names[i])
  {
    if names == [] then [] else [AssetAt(kind, folder, names[0])] + AssetsAt(kind, folder, names[1..])
  }

  lemma AssetsAtAppend(kind: AssetKind, folder: string, names: seq<string>, name: string)
    ensures AssetsAt(kind, folder, names + [name]) == AssetsAt(kind, folder, names) + [AssetAt(kind, folder, name)]
  {
    assert forall i :: 0 <= i < |names| ==> (names + [name])[i] == names[i];
  }

  /** One more listing entry with an allowed extension adds its asset. */
  lemma ListingAdmits(kind: AssetKind, folder: string, listing: seq<string>, i: nat)
    requires i < |listing| && Extension(listing[i]) in AllowedExtensions(kind)
    ensures AssetsAt(kind, folder, Filter(Admits(kind), listing[..i + 1]))
         == AssetsAt(kind, folder, Filter(Admits(kind), listing[..i])) + [AssetAt(kind, folder, listing[i])]
  {
    PrefixSnoc(listing, i);
    FilterSnoc(Admits(kind), listing[..i], listing[i]);
    AssetsAtAppend(kind, folder, Filter(Admits(kind), listing[..i]), listing[i]);
  }

  /** One more listing entry with any other extension adds nothing. */
  lemma ListingSkips(kind: AssetKind, folder: string, listing: seq<string>, i: nat)
    requires i < |listing| && Extension(listing[i]) !in AllowedExtensions(kind)
    ensures Filter(Admits(kind), listing[..i + 1]) == Filter(Admits(kind), listing[..i])
  {
    PrefixSnoc(listing, i);
    FilterSnoc(Admits(kind), listing[..i], listing[i]);
  }

  /** `from_folder_path(folder)` over the names `os.listdir` gave, in that order: one asset
      per admitted name, in listing order, each at `join(folder, name)`. */
  method FromFolderPath(kind: AssetKind, folder: string, listing: seq<string>) returns (objects: seq<Asset>)
    ensures objects == AssetsAt(kind, folder, Filter(Admits(kind), listing))
    ensures |objects| <= |listing|
  {
    objects := [];
    for i := 0 to |listing|
      invariant objects == AssetsAt(kind, folder, Filter(Admits(kind), listing[..i]))
    {
      var filename := listing[i];
      var extension := Extension(filename);
      if extension in AllowedExtensions(kind) {
        ListingAdmits(kind, folder, listing, i);
        objects := objects + [AssetAt(kind, folder, filename)];
      } else {
        ListingSkips(kind, folder, listing, i);
      }
    }
    FullPrefix(listing);
  }

  /** Each asset built from a listing name gives that name back as its `filename`
      (listing names never hold a '/'). */
  lemma AssetsAtFilenames(kind: AssetKind, folder: string, names: seq<string>)
    requires forall n :: n in names ==> '/' !in n
    ensures forall i :: 0 <= i < |names| ==> Filename(AssetsAt(kind, folder, names)[i].path) == names[i]
  {
    forall i | 0 <= i < |names|
      ensures Filename(AssetsAt(kind, folder, names)[i].path) == names[i]
    {
      BasenameJoin(folder, names[i]);
    }
  }

  /** What `from_folder_path` keeps, read back through `filename`: exactly the listing names
      with an allowed extension, in listing order. */
  lemma {:induction false} DiscoveredFilenames(kind: AssetKind, folder: string, listing: seq<string>)
    requires forall n :: n in listing ==> '/' !in n
    ensures var kept := Filter(Admits(kind), listing);
            var objects := AssetsAt(kind, folder, kept);
            && SubsequenceOf(kept, listing)
            && (forall i :: 0 <= i < |objects| ==> Filename(objects[i].path) == kept[i])
            && (forall n :: n in kept <==> n in listing && Extension(n) in AllowedExtensions(kind))
  {
    var kept := Filter(Admits(kind), listing);
    FilterIsSubsequence(Admits(kind), listing);
    AssetsAtFilenames(kind, folder, kept);
    forall n ensures n in kept <==> n in listing && Extension(n) in AllowedExtensions(kind) {
      FilterMember(Admits(kind), listing, n);
    }
  }

  /** Track discovery only ever yields `.gpx` files. */
  lemma DiscoveredTracksAreGpx(folder: string, listing: seq<string>)
    requires forall n :: n in listing ==> '/' !in n
    ensures var objects := AssetsAt(TrackKind, folder, Filter(Admits(TrackKind), listing));
            forall i :: 0 <= i < |objects| ==> Extension(Filename(objects[i].path)) == "gpx"
  {
    var kept := Filter(Admits(TrackKind), listing);
    var objects := AssetsAt(TrackKind, folder, kept);
    AssetsAtFilenames(TrackKind, folder, kept);
    forall i | 0 <= i < |objects| ensures Extension(Filename(objects[i].path)) == "gpx" {
      assert kept[i] in kept;
      assert Extension(kept[i]) in AllowedExtensions(TrackKind);
    }
  }
}
