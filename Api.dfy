/** The three request handlers over the store and the metadata table. */
module Api {
  import opened Wrappers
  import opened Strings
  import opened TimeWindow
  import opened Store
  import opened Listing
  import opened Metadata

  /** The answer of the single-image handler. `ServerError` is an error other than
      the store's not-found, which the handler does not catch. */
  datatype ImageResponse = NoContent | ImageMissing(message: string) | ServerError(error: StoreError)
  {
    /** The HTTP status code sent. */
    function Status(): int
    {
      match this
      case NoContent => 204
      case ImageMissing(_) => 404
      case ServerError(_) => 500
    }
  }

  const MESSAGE_PREFIX: string := "Image "
  const MESSAGE_SUFFIX: string := " doesn't exist"

  /** The message of a 404 for `name`. */
  function NotFoundMessage(name: string): string
  {
    MESSAGE_PREFIX + name + MESSAGE_SUFFIX
  }

  /** The image name a 404 message speaks of, if it has the message's shape. */
  function NameInMessage(message: string): Option<string>
  {
    var p, q := |MESSAGE_PREFIX|, |MESSAGE_SUFFIX|;
    if |message| >= p + q && message[..p] == MESSAGE_PREFIX && message[|message| - q..] == MESSAGE_SUFFIX
    then Some(message[p..|message| - q])
    else None
  }

  /** The single-image handler: 204 with an empty body when the object is downloaded;
      404 with a message naming the image when the store lacks it; and an uncaught
      failure (500) when the object exists but its local path needs a sub-directory. */
  function FetchImage(store: Bucket, name: string): (r: ImageResponse)
    ensures r.Status() == 204 <==> name in Keys(store) && !NeedsSubdirectory(name)
    ensures r.Status() == 404 <==> name !in Keys(store)
    ensures r.Status() == 500 <==> name in Keys(store) && NeedsSubdirectory(name)
    ensures r.ServerError? ==> r.error == LocalWriteFailed(name)
    ensures r.ImageMissing? ==> NameInMessage(r.message) == Some(name)
  {
    if name in Keys(store) then
      if NeedsSubdirectory(name) then ServerError(LocalWriteFailed(name)) else NoContent
    else
      var m := NotFoundMessage(name);
      assert m[..|MESSAGE_PREFIX|] == MESSAGE_PREFIX;
      assert m[|m| - |MESSAGE_SUFFIX|..] == MESSAGE_SUFFIX;
      assert m[|MESSAGE_PREFIX|..|m| - |MESSAGE_SUFFIX|] == name;
      ImageMissing(m)
  }

  /** What the list handler answers for a store and the request arguments: the
      selected image names, once the table has been reloaded from the last
      metadata key; the reload's failure aborts the request. */
  function ListResponse(store: Bucket, fromArg: Option<int>, toArg: Option<int>): Result<seq<string>, StoreError>
  {
    var args := DefaultArguments(fromArg, toArg);
    var w := ParseTimeRange(args.fromEpoch, args.toEpoch);
    match DownloadTable(store, LastMetadataKey(store.objects))
    case Failure(e) => Failure(e)
    case Success(_) => Success(FilterImages(store.objects, w))
  }

  /** The list handler: clamp the window, scan the listing, then reload the table
      from the chosen metadata key, replacing the old table entirely. */
  method ListImages(cache: MetadataTable, store: Bucket, fromArg: Option<int>, toArg: Option<int>)
    returns (r: Result<seq<string>, StoreError>)
    modifies cache
    ensures r == ListResponse(store, fromArg, toArg)
    ensures cache.downloads == old(cache.downloads) + [LastMetadataKey(store.objects)]
    ensures cache.table ==
              match DownloadTable(store, LastMetadataKey(store.objects))
              case Success(t) => Some(t)
              case Failure(_) => old(cache.table)
  {
    var args := DefaultArguments(fromArg, toArg);
    var w := ParseTimeRange(args.fromEpoch, args.toEpoch);
    var images, metadataKey := ScanListing(store.objects, w);
    var loaded := cache.Load(store, metadataKey);
    if loaded.Fail? {
      return Failure(loaded.error);
    }
    r := Success(images);
  }

  /** Every name the list handler returns is downloaded by the single-image handler
      (204), unless its local path needs a sub-directory (500). */
  lemma ListedImagesAreFetchable(store: Bucket, fromArg: Option<int>, toArg: Option<int>, name: string)
    requires ListResponse(store, fromArg, toArg).Success?
    requires name in ListResponse(store, fromArg, toArg).value
    ensures FetchImage(store, name) ==
              if NeedsSubdirectory(name) then ServerError(LocalWriteFailed(name)) else NoContent
  {
    var args := DefaultArguments(fromArg, toArg);
    var w := ParseTimeRange(args.fromEpoch, args.toEpoch);
    FilterImagesMembership(store.objects, w, name);
    var i :| 0 <= i < |store.objects| && store.objects[i].key == name && Selected(store.objects[i], w);
    ListedKeyIsStored(store, i);
  }

  /** A window given inverted stays inverted, so a successful listing is empty. */
  lemma InvertedRequestListsNothing(store: Bucket, fromEpoch: int, toEpoch: int)
    requires fromEpoch > toEpoch
    requires ListResponse(store, Some(fromEpoch), Some(toEpoch)).Success?
    ensures ListResponse(store, Some(fromEpoch), Some(toEpoch)).value == []
  {
    FilterImagesInvertedIsEmpty(store.objects, ParseTimeRange(fromEpoch, toEpoch));
  }

  /** A bucket without a metadata key makes the reload download the empty key,
      which no object has, so the whole list request fails. */
  lemma NoMetadataKeyFailsListing(store: Bucket, fromArg: Option<int>, toArg: Option<int>)
    requires ValidBucket(store)
    requires forall i | 0 <= i < |store.objects| :: !IsMetadataKey(store.objects[i].key)
    ensures ListResponse(store, fromArg, toArg) == Failure(NotFound(""))
  {
    LastMetadataKeyIsLast(store.objects);
    EmptyKeyNotFound(store);
  }

  /** `a.png` and `b.png` are image keys of the listing scenario below. */
  lemma ScenarioImageKeys()
    ensures IsImageKey("a.png") && IsImageKey("b.png")
  {
    ContainsWitness("a.png", IMAGE_MARKER, 1);
    ContainsWitness("b.png", IMAGE_MARKER, 1);
  }

  /** The local copy of `metadata_v2.txt` lands directly in the data directory. */
  lemma ScenarioMetadataKeyIsFlat()
    ensures !NeedsSubdirectory("metadata_v2.txt")
  {
    assert "" + "metadata_v2.txt" == "metadata_v2.txt";
    LeadingSlashesNeedNoSubdirectory("", "metadata_v2.txt");
  }

  /** `metadata_v2.txt` is the metadata key of the listing scenario below. */
  lemma ScenarioMetadataKey()
    ensures IsMetadataKey("metadata_v2.txt")
  {
    ContainsWitness("metadata_v2.txt", METADATA_MARKER, 0);
    if Contains("metadata_v2.txt", IMAGE_MARKER) {
      ContainsOnlyItsCharacters("metadata_v2.txt", IMAGE_MARKER, 1);
      assert false;
    }
  }

  /** A listing of two images and a metadata object, where only the first image
      falls in the requested window. */
  lemma ListingOfThree(a: BucketObject, b: BucketObject, m: BucketObject, t: Table, w: Window)
    requires ParseTimeRange(w.fromEpoch, w.toEpoch) == w
    requires Selected(a, w) && IsImageKey(b.key) && !InWindow(b.lastModified, w)
    requires IsMetadataKey(m.key) && !NeedsSubdirectory(m.key)
    ensures LastMetadataKey([a, b, m]) == m.key
    ensures ListResponse(Bucket([a, b, m], map[m.key := t]), Some(w.fromEpoch), Some(w.toEpoch)) == Success([a.key])
  {
    var objs := [a, b, m];
    assert objs[..2] == [a, b] && [a, b][..1] == [a] && [a][..0] == [];
    assert FilterImages([a], w) == [a.key];
    assert FilterImages([a, b], w) == [a.key];
    assert FilterImages(objs, w) == [a.key];
    assert m in objs;
  }

  /** A listing request answered from a bucket holding `a.png` (modified at 100),
      `b.png` (at 200) and `metadata_v2.txt`, for the window 50..150. */
  lemma ListingScenario(t: Table)
    ensures var store := Bucket([BucketObject("a.png", 100), BucketObject("b.png", 200),
                                 BucketObject("metadata_v2.txt", 300)],
                                map["metadata_v2.txt" := t]);
            && LastMetadataKey(store.objects) == "metadata_v2.txt"
            && ListResponse(store, Some(50), Some(150)) == Success(["a.png"])
  {
    ScenarioImageKeys();
    ScenarioMetadataKey();
    ScenarioMetadataKeyIsFlat();
    ListingOfThree(BucketObject("a.png", 100), BucketObject("b.png", 200),
                   BucketObject("metadata_v2.txt", 300), t, Window(50, 150));
  }

  /** A record for `a.png` with an exposure of 30 is what its metadata request returns. */
  lemma LookupScenario()
    ensures var row := map[NAME_COLUMN := Text("a.png"), "exposure" := Number(30)];
            LookupRow(Table({NAME_COLUMN, "exposure"}, [row]), "a.png") == Success(row)
  {
  }
}
