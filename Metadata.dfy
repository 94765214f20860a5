/** The process-wide metadata table: loaded from a tab-delimited object, replaced
    wholesale on every load, and searched by the `imageNames` column. */
module Metadata {
  import opened Wrappers
  import opened Store

  /** The object loaded when a lookup finds no table yet. */
  const DEFAULT_METADATA_KEY: string := "metadata.txt"

  /** The column that names each record's image. */
  const NAME_COLUMN: string := "imageNames"

  /** A record belongs to `name` when its name cell is exactly that text. */
  predicate Matches(row: Row, name: string)
  {
    NAME_COLUMN in row && row[NAME_COLUMN] == Text(name)
  }

  /** The index of the first record that belongs to `name`, if any. */
  function FirstMatch(rows: seq<Row>, name: string): (r: Option<nat>)
    ensures r.Some? ==> r.value < |rows| && Matches(rows[r.value], name)
    ensures r.Some? ==> forall j | 0 <= j < r.value :: !Matches(rows[j], name)
    ensures r.None? <==> forall j | 0 <= j < |rows| :: !Matches(rows[j], name)
  {
    if rows == [] then None
    else if Matches(rows[0], name) then Some(0)
    else match FirstMatch(rows[1..], name)
      case None => None
      case Some(i) => Some(i + 1)
  }

  /** Selecting the records of `name` and taking the first, or `{}` when there is none.
      A table without the name column fails. */
  function LookupRow(t: Table, name: string): (r: Result<Row, StoreError>)
    ensures r.Failure? <==> NAME_COLUMN !in t.columns
    ensures r.Failure? ==> r.error == MissingColumn(NAME_COLUMN)
    ensures r == Success(map[]) <==>
              NAME_COLUMN in t.columns && forall j | 0 <= j < |t.rows| :: !Matches(t.rows[j], name)
    ensures r.Success? && r.value != map[] ==>
              exists i | 0 <= i < |t.rows| :: r.value == t.rows[i] && Matches(t.rows[i], name) &&
                forall j | 0 <= j < i :: !Matches(t.rows[j], name)
  {
    if NAME_COLUMN !in t.columns then Failure(MissingColumn(NAME_COLUMN))
    else match FirstMatch(t.rows, name)
      case None => Success(map[])
      case Some(i) => Success(t.rows[i])
  }

  /** With several records for one name, only the first is ever returned. */
  lemma LookupReturnsFirstOfDuplicates(t: Table, name: string, i: int, j: int)
    requires NAME_COLUMN in t.columns
    requires 0 <= i < j < |t.rows|
    requires Matches(t.rows[i], name) && Matches(t.rows[j], name)
    requires forall k | 0 <= k < i :: !Matches(t.rows[k], name)
    ensures LookupRow(t, name) == Success(t.rows[i])
  {
  }

  /** The metadata table held by the service, absent until first loaded. */
  class MetadataTable {
    var table: Option<Table>
    /** The keys downloaded for this table so far, oldest first. */
    ghost var downloads: seq<string>

    constructor ()
      ensures table == None && downloads == []
    {
      table := None;
      downloads := [];
    }

    /** Downloads `key` and replaces the whole table with its contents; a failed
        download or parse raises and leaves the table as it was. */
    method Load(store: Bucket, key: string) returns (outcome: Outcome<StoreError>)
      modifies this
      ensures downloads == old(downloads) + [key]
      ensures outcome.Pass? <==> DownloadTable(store, key).Success?
      ensures outcome.Fail? ==> outcome.error == DownloadTable(store, key).error
      ensures table == if outcome.Pass? then Some(DownloadTable(store, key).value) else old(table)
    {
      downloads := downloads + [key];
      var fetched := DownloadTable(store, key);
      if fetched.Failure? {
        return Fail(fetched.error);
      }
      table := Some(fetched.value);
      return Pass;
    }

    /** The metadata handler: loads the default object once if no table is present,
        then returns the first record of `name`, or `{}`. */
    method Lookup(store: Bucket, name: string) returns (r: Result<Row, StoreError>)
      modifies this
      ensures old(table).Some? ==>
                table == old(table) && downloads == old(downloads) && r == LookupRow(table.value, name)
      ensures old(table).None? ==> downloads == old(downloads) + [DEFAULT_METADATA_KEY]
      ensures old(table).None? ==>
                match DownloadTable(store, DEFAULT_METADATA_KEY)
                case Success(t) => table == Some(t) && r == LookupRow(t, name)
                case Failure(e) => table == None && r == Failure(e)
    {
      if table.None? {
        var loaded := Load(store, DEFAULT_METADATA_KEY);
        if loaded.Fail? {
          return Failure(loaded.error);
        }
      }
      r := LookupRow(table.value, name);
    }
  }
}
