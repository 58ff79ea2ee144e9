/** The six operations of main.py, each as a method that drives the store client and
    the local machine, proved against `Perform`, the pure account of what it does. */
module Commands {
  import opened Wrappers
  import opened Pairing
  import opened Conditions
  import opened Store
  import opened Machine

  /** An operation request with the arguments its function receives. */
  datatype Request =
    | SyncOp(collection: string)
    | DeleteOp(collection: string, docId: string)
    | AddOp(collection: string, fields: seq<string>)
    | UpdateOp(collection: string, docId: string, fields: seq<string>)
    | CsvOp(collection: string, csvPath: string)
    | QueryOp(collection: string, conditions: seq<string>)

  /** What one run does: the store calls made, in order, the local state afterwards,
      and the uncaught exception that ended it, if any. */
  datatype Outcome = Outcome(calls: seq<Call>, after: Local, failure: Option<Error>)

  const SYNC_DIR := "collections"

  /** `Path("collections") / f"{name}.txt"`. */
  function SyncPath(name: string): string
  {
    SYNC_DIR + "/" + name + ".txt"
  }

  /** One `add` per CSV row, in row order. */
  function AddEach(collection: string, rows: seq<Row>): (calls: seq<Call>)
    ensures |calls| == |rows|
    ensures forall i :: 0 <= i < |rows| ==> calls[i] == Add(collection, rows[i])
  {
    if rows == [] then []
    else AddEach(collection, rows[..|rows| - 1]) + [Add(collection, rows[|rows| - 1])]
  }

  /** The effect of running one request against a store that answers reads with
      `respond`, on a machine whose CSV reader is `parseCsv`. */
  function Perform(req: Request, respond: Call -> seq<Doc>, parseCsv: string -> seq<Row>,
                   before: Local): Outcome
  {
    match req
    case SyncOp(name) =>
      var docs := respond(Stream(name));
      Outcome([Stream(name)],
              before.(dirs := before.dirs + {SYNC_DIR},
                      files := before.files[SyncPath(name) := Listing(docs)]),
              None)
    case DeleteOp(collection, docId) =>
      Outcome([Delete(collection, docId)], before, None)
    case AddOp(collection, fields) =>
      Outcome([Add(collection, FieldData(fields))], before, None)
    case UpdateOp(collection, docId, fields) =>
      Outcome([SetMerge(collection, docId, FieldData(fields))], before, None)
    case CsvOp(collection, csvPath) =>
      if csvPath in before.files then
        Outcome(AddEach(collection, parseCsv(before.files[csvPath])), before, None)
      else
        Outcome([], before, Some(FileNotFound(csvPath)))
    case QueryOp(collection, conditions) =>
      match Triples(conditions)
      case Err(e) => Outcome([], before, Some(e))
      case Ok(filters) =>
        var q := Query(collection, filters);
        Outcome([QueryStream(q)], before.(stdout := before.stdout + Listing(respond(QueryStream(q)))), None)
  }

  /** `sync_collection`: create the directory, stream the collection and write one line
      per document to the collection's file, replacing what it held. */
  method SyncCollection(db: Client, host: Host, name: string)
    modifies db, host
    ensures var e := Perform(SyncOp(name), db.respond, host.parseCsv, old(host.State()));
            db.log == old(db.log) + e.calls && host.State() == e.after && e.failure == None
  {
    host.MakeDir(SYNC_DIR);
    var path := SyncPath(name);
    var docs := db.StreamDocs(name);
    host.OpenForWrite(path);
    for i := 0 to |docs|
      invariant host.State() == old(host.State()).(dirs := old(host.dirs) + {SYNC_DIR},
                                                    files := old(host.files)[path := Listing(docs[..i])])
      invariant db.log == old(db.log) + [Stream(name)] && docs == db.respond(Stream(name))
    {
      assert docs[..i + 1][..i] == docs[..i];
      host.Write(path, Line(docs[i]));
    }
    assert docs[..|docs|] == docs;
  }

  /** `delete_document`. */
  method DeleteDocument(db: Client, host: Host, collection: string, docId: string)
    modifies db
    ensures var e := Perform(DeleteOp(collection, docId), db.respond, host.parseCsv, host.State());
            db.log == old(db.log) + e.calls && e.after == host.State() && e.failure == None
  {
    db.DeleteDoc(collection, docId);
  }

  /** `add_document`: pair the flat field list and add it as a new document. */
  method AddDocument(db: Client, host: Host, collection: string, fields: seq<string>)
    modifies db
    ensures var e := Perform(AddOp(collection, fields), db.respond, host.parseCsv, host.State());
            db.log == old(db.log) + e.calls && e.after == host.State() && e.failure == None
  {
    var data := FieldData(fields);
    db.AddDoc(collection, data);
  }

  /** `update_document`: pair the flat field list and merge it into the document. */
  method UpdateDocument(db: Client, host: Host, collection: string, docId: string, fields: seq<string>)
    modifies db
    ensures var e := Perform(UpdateOp(collection, docId, fields), db.respond, host.parseCsv, host.State());
            db.log == old(db.log) + e.calls && e.after == host.State() && e.failure == None
  {
    var data := FieldData(fields);
    db.MergeDoc(collection, docId, data);
  }

  /** `add_from_csv`: add one document per row of the CSV file, in row order. */
  method AddFromCsv(db: Client, host: Host, collection: string, csvPath: string)
    returns (failure: Option<Error>)
    modifies db
    ensures var e := Perform(CsvOp(collection, csvPath), db.respond, host.parseCsv, host.State());
            db.log == old(db.log) + e.calls && e.after == host.State() && failure == e.failure
  {
    var read := host.ReadCsv(csvPath);
    if read.Err? {
      return Some(read.error);
    }
    var rows := read.value;
    for i := 0 to |rows|
      invariant db.log == old(db.log) + AddEach(collection, rows[..i])
    {
      assert rows[..i + 1][..i] == rows[..i];
      db.AddDoc(collection, rows[i]);
    }
    assert rows[..|rows|] == rows;
    return None;
  }

  /** `query_collection`: build the filtered query, stream it and print one line per
      matching document. A malformed condition list fails while the query is built,
      before the store is asked anything. */
  method QueryCollection(db: Client, host: Host, collection: string, conditions: seq<string>)
    returns (failure: Option<Error>)
    modifies db, host
    ensures var e := Perform(QueryOp(collection, conditions), db.respond, host.parseCsv, old(host.State()));
            db.log == old(db.log) + e.calls && host.State() == e.after && failure == e.failure
  {
    var built := BuildQuery(collection, conditions);
    if built.Err? {
      return Some(built.error);
    }
    var docs := db.StreamMatching(built.value);
    for i := 0 to |docs|
      invariant host.State() == old(host.State()).(stdout := old(host.stdout) + Listing(docs[..i]))
      invariant db.log == old(db.log) + [QueryStream(built.value)] && docs == db.respond(QueryStream(built.value))
    {
      assert docs[..i + 1][..i] == docs[..i];
      host.Print(Shown(docs[i]));
    }
    assert docs[..|docs|] == docs;
    return None;
  }

  /** Sync leaves the collection's file holding exactly the streamed documents' lines:
      document k's line follows the lines of documents 0 .. k-1, and the file has one
      newline per document when no id or rendering holds one. */
  lemma SyncFileLines(name: string, respond: Call -> seq<Doc>, parseCsv: string -> seq<Row>,
                      before: Local, k: nat)
    requires k < |respond(Stream(name))|
    ensures var docs := respond(Stream(name));
            var file := Perform(SyncOp(name), respond, parseCsv, before).after.files[SyncPath(name)];
            file == Listing(docs[..k]) + Line(docs[k]) + Listing(docs[k + 1..])
  {
    ListingAt(respond(Stream(name)), k);
  }

  /** Syncing an empty collection leaves an existing, empty file, whatever the file
      held before. */
  lemma SyncEmptyCollection(name: string, respond: Call -> seq<Doc>, parseCsv: string -> seq<Row>,
                            before: Local)
    requires respond(Stream(name)) == []
    ensures var after := Perform(SyncOp(name), respond, parseCsv, before).after;
            SyncPath(name) in after.files && after.files[SyncPath(name)] == ""
  {
  }
}
