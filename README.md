# image_loader service core, modelled in Dafny

The service in `api.py` lists, fetches and describes images held in an S3 bucket.
This project models its sequential logic with the cloud store and the dataframe
library abstracted away:

- **Time-window clamp** (`TimeWindow`): missing request arguments take their
  defaults (`0` and `MAX_EPOCH`); `from` is raised to `MIN_EPOCH`, `to` is lowered
  to `MAX_EPOCH`, and an inverted window is neither swapped nor rejected.
- **Substring test** (`Strings`): Python's `pat in s`, with a proof that the
  left-to-right scan succeeds exactly when the pattern occurs at some position.
- **Store** (`Store`): a bucket is its listing (key and last-modified second, in
  enumeration order) plus the parsed table of every object whose contents read as a
  tab-delimited table. Downloading a key the bucket lacks fails with `NotFound`;
  an object that does not parse fails with `Unparsable`.
- **Listing walk** (`Listing`): the list handler's loop, `ScanListing`, keeps every
  key containing `.png` whose time lies in the inclusive window, and remembers the
  last key that contains `metadata` but not `.png` (`""` when there is none). It is
  proved equal to the specification functions `FilterImages` and
  `LastMetadataKey`, whose lemmas say that the result is an order-preserving
  subsequence of the listing, which keys it holds, that an inverted window gives
  nothing, and which metadata key wins.
- **Metadata table** (`Metadata`): the process-wide table is the class
  `MetadataTable` with field `table: Option<Table>`, absent at start. `Load`
  replaces it wholesale, or leaves it unchanged when the download or parse fails.
  `Lookup` (the metadata handler) first loads `metadata.txt` when no table is
  present, and only then. It returns the first record whose `imageNames` cell is
  exactly the requested name, or `{}`. A ghost log `downloads` records every key
  downloaded, so "loads exactly once" and "does not reload" are stated outright.
- **Handlers** (`Api`): `FetchImage` answers 204 when the bucket has the key, 404
  with `Image {name} doesn't exist` when it lacks it, and 500 when the local write
  fails. `ListImages` clamps, scans, reloads
  the table from the chosen key (replacing it, never merging) and returns the names.
  A failed reload fails the whole request, as in the source. This includes the
  empty key chosen when the bucket holds no metadata object.

Edge cases of `api.py` that the model keeps:
- A malformed argument is rejected by `reqparse` (`type=int`) before the handler
  runs. Only a missing argument takes its default.
- The clamp never reorders an inverted window, and it can turn an ordered one such
  as `(-5, -3)` into `(0, -3)` (`ParseTimeRange`'s last ensures clause).
- A lookup with no table loaded first downloads `metadata.txt`. The request fails
  when that object is missing.
- A download writes its object to `data/<key>`. A key that still holds a `/` once
  its leading slashes are dropped (`sub/a.png`, but not `/metadata.txt`) names a
  sub-directory that is never created. That download fails even when the object
  exists (`LocalWriteFailed`). The reload then fails the list request, and the
  single-image handler answers 500, since the failure is not the store's not-found.

## Model

| member | source | states |
|---|---|---|
| TimeWindow.DefaultArguments | api.py:23-25 | a missing `from` becomes MIN_EPOCH (0) and a missing `to` becomes MAX_EPOCH; a given argument is kept |
| TimeWindow.ParseTimeRange | api.py:38-49 | the result has `from >= MIN_EPOCH` and `to <= MAX_EPOCH`; an in-range end is unchanged and an out-of-range end becomes the bound; the result is inverted exactly when the input was inverted or lay wholly outside the legal range, so nothing is swapped or rejected |
| TimeWindow.ParseTimeRangeIdempotent | api.py:44-47 | clamping a clamped window changes nothing |
| TimeWindow.NoArgumentsGiveFullRange | api.py:24-25 | a request without arguments filters over the full range `[0, MAX_EPOCH]` |
| Strings.ContainsIffOccurs | api.py:120-125 | the substring test `pat in key` holds exactly when `pat` occurs at some position of `key` |
| Store.DownloadTable | api.py:34-36 | the download and parse succeed exactly when the key is in the bucket, holds no `/` beyond its leading ones, and its object parses, yielding that table; otherwise the failure is NotFound (checked first), LocalWriteFailed or Unparsable |
| Store.StripLeadingSlashes | api.py:34-35 | the result is the key minus a prefix made only of `/`, and does not itself start with `/` |
| Store.LeadingSlashesNeedNoSubdirectory | api.py:34-35 | a key whose only separators are leading ones is written directly into the data directory |
| Store.LeadingSlashKeyDownloads | api.py:34-36 | a stored table under `/metadata.txt` downloads and parses successfully |
| Store.EmptyKeyNotFound | api.py:117-130 | in a bucket of non-empty keys, downloading the empty key fails with NotFound |
| Store.ListedKeyIsStored | api.py:118-119 | every key of the listing names an object of the bucket |
| Listing.ScanListing | api.py:116-127 | the loop returns exactly `FilterImages` of the listing and `LastMetadataKey` of it |
| Listing.FilterImagesIsSubsequence | api.py:118-124 | the returned names are a subsequence of the listing's keys in enumeration order |
| Listing.FilterImagesAppend | api.py:118-124 | filtering a concatenated listing gives the filtered parts concatenated in order, so there is no re-sorting |
| Listing.FilterImagesMembership | api.py:120-124 | a name is returned exactly when some listed object with that key contains `.png` and has `from <= lastModified <= to` |
| Listing.FilterImagesInvertedIsEmpty | api.py:123-124 | with `from > to` nothing is returned, whatever the listing holds |
| Listing.LastMetadataKeyIsLast | api.py:117-127 | the chosen key is `""` or a key with `metadata` and without `.png`; it is `""` when no such key is listed, and otherwise the last such key in enumeration order |
| Metadata.FirstMatch | api.py:70-74 | the index found is a record whose `imageNames` is exactly the name, with no earlier such record; none is found exactly when no record matches |
| Metadata.LookupRow | api.py:70-76 | lookup fails exactly when the table has no `imageNames` column; it returns `{}` exactly when no record matches; otherwise it returns the first matching record |
| Metadata.LookupReturnsFirstOfDuplicates | api.py:71-74 | with two records for one name, the earlier one is returned and the later one never is |
| Metadata.MetadataTable.constructor | api.py:29 | the table starts absent and nothing has been downloaded |
| Metadata.MetadataTable.Load | api.py:31-36 | the key is downloaded once; on success the table becomes exactly the parsed object, and on failure the error is returned and the table is unchanged |
| Metadata.MetadataTable.Lookup | api.py:66-76 | a present table is neither reloaded nor changed, and the answer is its lookup; an absent table is loaded from `metadata.txt` exactly once, then looked up; if that load fails, the request fails and the table stays absent |
| Api.FetchImage | api.py:88-92 | the status is 204 exactly when the bucket has the key and its local path needs no sub-directory, 404 exactly when the bucket lacks the key, and 500 (LocalWriteFailed) otherwise; the 404 message has the form `Image {name} doesn't exist`, from which the name can be read back |
| Api.ListImages | api.py:109-131 | the answer is `ListResponse`; the chosen key is downloaded once; the table becomes exactly that key's table and is not merged, or is unchanged when the reload fails, in which case the request fails |
| Api.ListedImagesAreFetchable | api.py:118-124 | every name in a successful listing answers 204 to the single-image handler, or 500 when its local path needs a sub-directory; never 404 |
| Api.InvertedRequestListsNothing | api.py:113-124 | a request with `from > to` lists no image |
| Api.NoMetadataKeyFailsListing | api.py:117-130 | in a valid bucket with no metadata key, the list request fails with NotFound for the empty key |
| Api.ScenarioImageKeys | api.py:120-124 | `a.png` and `b.png` are image keys |
| Api.ScenarioMetadataKey | api.py:120-127 | `metadata_v2.txt` is a metadata key and not an image key |
| Api.ScenarioMetadataKeyIsFlat | api.py:34-35 | `metadata_v2.txt` is downloaded directly into the data directory |
| Api.ListingOfThree | api.py:116-131 | for a listing of an in-window image, an out-of-window image and a metadata object whose key holds no `/`, the request lists only the first image and reloads from the metadata object |
| Api.ListingScenario | api.py:116-131 | the bucket `a.png`@100, `b.png`@200, `metadata_v2.txt` with window 50..150 lists `["a.png"]` and reloads from `metadata_v2.txt` |
| Api.LookupScenario | api.py:70-76 | a record `imageNames=a.png, exposure=30` is what a lookup of `a.png` returns |

## Left out

- Flask, flask_restful and CORS wiring (api.py:19-21, 133-139): this is framework plumbing. The handlers take already-parsed arguments.
- `reqparse` argument coercion (api.py:23-25): a non-integer argument is rejected by the framework before the handler runs. Only absence (`Option<int>`) is modelled.
- boto3 calls (api.py:27-28, 35, 89, 118): this is network I/O. The bucket is a value, and `ClientError` becomes `NotFound`. Other store errors, such as a validation error for the empty key, are also modelled as a failed request (`NotFound`).
- `pd.read_csv` (api.py:36): the dataframe library is foreign. A parsed table is given per key, and a parse failure becomes `Unparsable`. Cells are text, integers or missing; floating-point cells are not modelled.
- `datetime.fromtimestamp(...).replace(tzinfo=utc)` (api.py:114-115, 123): this depends on the local time zone and the datetime library. The model compares integer seconds directly. It therefore omits the zone shift from relabelling local time as UTC. It also omits the `ValueError` raised for a `from` beyond year 9999 or a very negative `to`.
- MAX_EPOCH (api.py:15): the source computes it in the local time zone. The model fixes the UTC value 253402300799, and no proof depends on that value beyond `MIN_EPOCH < MAX_EPOCH`.
- JSON serialisation: each listed key is returned to the client as `{"name": key}`. The model returns the keys themselves, in the same order.
- Logging (api.py:32, 40, 65, 87, 112): it has no effect on any answer.
- Local file writes into `DATA_DIR` (api.py:12-13, 34-35, 89): the files themselves are not modelled. Only one failure of the write is modelled: a key with `/` (`LocalWriteFailed`). Other failures of the local write, such as a missing `data` directory or a full disk, are not modelled. They would surface as unhandled errors.
- Concurrent requests on the shared table: out of scope. One request at a time is assumed.
- Store.DownloadTable: the local path is treated as being in a sub-directory whenever a `/` remains after the leading ones. A key whose inner components are only `.` or `..` (`./a.png`, `../a.png`) lands in an existing directory and succeeds in the source, but fails in the model. Resolving such path components is not modelled.
- Api.FetchImage: this is the single-image handler's own answer for any name. The route `/images/<img_name>` (api.py:134) never passes it a name with `/`. Such a request is routed elsewhere by the framework: `x/metadata` goes to the metadata handler, and other names get a plain 404. That routing is not modelled.
