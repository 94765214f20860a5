/** The object store bucket as the service sees it: a listing of keys with their
    modification times, and the parsed contents of the objects that hold tables. */
module Store {
  import opened Wrappers

  /** One entry of a bucket listing. */
  datatype BucketObject = BucketObject(key: string, lastModified: int)

  /** A cell of the metadata table: text, an integer, or the missing-value marker. */
  datatype Cell = Text(text: string) | Number(number: int) | Missing

  /** One record of the table, from column name to cell. */
  type Row = map<string, Cell>

  /** A parsed tab-delimited table: its header and its records in file order. */
  datatype Table = Table(columns: set<string>, rows: seq<Row>)

  /** Every record of a parsed table has exactly the header's columns. */
  ghost predicate WellFormedTable(t: Table)
  {
    forall i | 0 <= i < |t.rows| :: t.rows[i].Keys == t.columns
  }

  /** A bucket: its listing in enumeration order, and for each object whose
      contents parse as a tab-delimited table, that table. */
  datatype Bucket = Bucket(objects: seq<BucketObject>, tables: map<string, Table>)

  /** What can go wrong in the store or in the table. */
  datatype StoreError =
    | NotFound(key: string)         // the store has no object with this key
    | LocalWriteFailed(key: string) // the key's local path lies in a sub-directory of the
                                    // data directory, which the download does not create
    | Unparsable(key: string)       // the object exists but is not a table
    | MissingColumn(column: string) // the table lacks the column looked up

  /** `key` without its leading slashes: the local path `data/` + `key` collapses
      the doubled separators into the data directory itself. */
  function StripLeadingSlashes(key: string): (r: string)
    ensures |r| <= |key| && r == key[|key| - |r|..]
    ensures r == [] || r[0] != '/'
    ensures forall i | 0 <= i < |key| - |r| :: key[i] == '/'
  {
    if key != [] && key[0] == '/' then StripLeadingSlashes(key[1..]) else key
  }

  /** The local copy of `key` lands in a sub-directory of the data directory: a
      separator remains once the leading ones are dropped. */
  predicate NeedsSubdirectory(key: string)
  {
    '/' in StripLeadingSlashes(key)
  }

  /** A key whose only separators are leading ones, such as `/metadata.txt`, is
      written directly into the data directory. */
  lemma {:induction false} LeadingSlashesNeedNoSubdirectory(slashes: string, name: string)
    requires forall i | 0 <= i < |slashes| :: slashes[i] == '/'
    requires '/' !in name
    ensures !NeedsSubdirectory(slashes + name)
    decreases |slashes|
  {
    if slashes == [] {
      assert slashes + name == name;
    } else {
      assert (slashes + name)[1..] == slashes[1..] + name;
      LeadingSlashesNeedNoSubdirectory(slashes[1..], name);
    }
  }

  /** The keys present in the bucket. */
  function Keys(b: Bucket): set<string>
  {
    set o | o in b.objects :: o.key
  }

  /** Object store keys are non-empty and unique, and only stored objects parse. */
  ghost predicate ValidBucket(b: Bucket)
  {
    && (forall i | 0 <= i < |b.objects| :: b.objects[i].key != "")
    && (forall i, j | 0 <= i < j < |b.objects| :: b.objects[i].key != b.objects[j].key)
    && b.tables.Keys <= Keys(b)
    && (forall k | k in b.tables :: WellFormedTable(b.tables[k]))
  }

  /** Download the object at `key` into the data directory and parse it as a table.
      The store is asked first, so a missing key fails before the local write does. */
  function DownloadTable(b: Bucket, key: string): (r: Result<Table, StoreError>)
    ensures r.Success? <==> key in Keys(b) && !NeedsSubdirectory(key) && key in b.tables
    ensures r.Success? ==> r.value == b.tables[key]
    ensures key !in Keys(b) ==> r == Failure(NotFound(key))
    ensures key in Keys(b) && NeedsSubdirectory(key) ==> r == Failure(LocalWriteFailed(key))
    ensures key in Keys(b) && !NeedsSubdirectory(key) && key !in b.tables ==> r == Failure(Unparsable(key))
  {
    if key !in Keys(b) then Failure(NotFound(key))
    else if NeedsSubdirectory(key) then Failure(LocalWriteFailed(key))
    else if key !in b.tables then Failure(Unparsable(key))
    else Success(b.tables[key])
  }

  /** A stored table under `/metadata.txt` is downloaded and parsed: its local path
      `data//metadata.txt` lies in the data directory itself. */
  lemma LeadingSlashKeyDownloads(t: Table)
    ensures var b := Bucket([BucketObject("/metadata.txt", 0)], map["/metadata.txt" := t]);
            DownloadTable(b, "/metadata.txt") == Success(t)
  {
    var b := Bucket([BucketObject("/metadata.txt", 0)], map["/metadata.txt" := t]);
    assert "/" + "metadata.txt" == "/metadata.txt";
    LeadingSlashesNeedNoSubdirectory("/", "metadata.txt");
    assert b.objects[0] in b.objects;
  }

  /** A key taken from the listing is one the store has. */
  lemma ListedKeyIsStored(b: Bucket, i: int)
    requires 0 <= i < |b.objects|
    ensures b.objects[i].key in Keys(b)
  {
    assert b.objects[i] in b.objects;
  }

  /** The empty key never names an object of a valid bucket, so downloading it fails. */
  lemma EmptyKeyNotFound(b: Bucket)
    requires ValidBucket(b)
    ensures DownloadTable(b, "") == Failure(NotFound(""))
  {
  }
}
