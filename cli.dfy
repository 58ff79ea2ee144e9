/** The command line of main.py: the parsed option values, the fixed-order choice of
    the one operation to run, and the slicing of its argument list. */
module Cli {
  import opened Wrappers
  import opened Pairing
  import opened Conditions
  import opened Store
  import opened Machine
  import opened Commands

  /** The values argparse leaves in `args`: None for an option not given. */
  datatype Options = Options(
    sync: Option<string>,
    delete: Option<seq<string>>,
    add: Option<seq<string>>,
    update: Option<seq<string>>,
    csv: Option<seq<string>>,
    query: Option<seq<string>>)

  /** Python truthiness of an option value: None and the empty string are false. */
  predicate TruthyName(v: Option<string>)
  {
    v.Some? && v.value != ""
  }

  /** Python truthiness of a list option: None and the empty list are false. */
  predicate TruthyList(v: Option<seq<string>>)
  {
    v.Some? && v.value != []
  }

  /** The condition of each branch of the dispatch chain, in its order: sync, delete,
      add, update, csv, query. */
  function Flags(o: Options): (bs: seq<bool>)
    ensures |bs| == 6
  {
    [TruthyName(o.sync), TruthyList(o.delete), TruthyList(o.add),
     TruthyList(o.update), TruthyList(o.csv), TruthyList(o.query)]
  }

  /** The position of the first true flag, or |bs| if there is none. */
  function FirstSet(bs: seq<bool>): (i: nat)
    ensures i <= |bs|
    ensures forall j :: 0 <= j < i ==> !bs[j]
    ensures i < |bs| ==> bs[i]
  {
    if bs == [] then 0 else if bs[0] then 0 else 1 + FirstSet(bs[1..])
  }

  /** The branch of the dispatch chain that is taken; 6 when no option is given. */
  function Chosen(o: Options): nat
  {
    FirstSet(Flags(o))
  }

  /** The chosen branch is the first option of the chain that is truthy. */
  lemma ChosenCases(o: Options)
    ensures Chosen(o) == if TruthyName(o.sync) then 0
                         else if TruthyList(o.delete) then 1
                         else if TruthyList(o.add) then 2
                         else if TruthyList(o.update) then 3
                         else if TruthyList(o.csv) then 4
                         else if TruthyList(o.query) then 5
                         else 6
  {
  }

  /** The position of a request's operation in the dispatch order. */
  function Rank(req: Request): nat
  {
    match req
    case SyncOp(_) => 0
    case DeleteOp(_, _) => 1
    case AddOp(_, _) => 2
    case UpdateOp(_, _, _) => 3
    case CsvOp(_, _) => 4
    case QueryOp(_, _) => 5
  }

  /** The if/elif chain of main.py: the request of the first truthy option, with its
      list sliced into collection, document id and rest; an index past the end of a
      list raises before anything runs. */
  function Select(o: Options): (r: Result<Option<Request>, Error>)
    ensures r == Ok(None) <==> Chosen(o) == 6
    ensures r.Ok? && r.value.Some? ==> Rank(r.value.value) == Chosen(o)
    ensures r.Err? <==> || (Chosen(o) == 1 && |o.delete.value| == 1)
                        || (Chosen(o) == 3 && |o.update.value| == 1)
                        || (Chosen(o) == 4 && |o.csv.value| == 1)
    ensures r.Err? ==> r.error == IndexError(1, 1)
  {
    ChosenCases(o);
    if TruthyName(o.sync) then Ok(Some(SyncOp(o.sync.value)))
    else if TruthyList(o.delete) then
      var a := o.delete.value;
      if |a| < 2 then Err(IndexError(1, |a|)) else Ok(Some(DeleteOp(a[0], a[1])))
    else if TruthyList(o.add) then
      var a := o.add.value;
      Ok(Some(AddOp(a[0], a[1..])))
    else if TruthyList(o.update) then
      var a := o.update.value;
      if |a| < 2 then Err(IndexError(1, |a|)) else Ok(Some(UpdateOp(a[0], a[1], a[2..])))
    else if TruthyList(o.csv) then
      var a := o.csv.value;
      if |a| < 2 then Err(IndexError(1, |a|)) else Ok(Some(CsvOp(a[0], a[1])))
    else if TruthyList(o.query) then
      var a := o.query.value;
      Ok(Some(QueryOp(a[0], a[1..])))
    else Ok(None)
  }

  /** The whole run of the tool on parsed options. */
  function Plan(o: Options, respond: Call -> seq<Doc>, parseCsv: string -> seq<Row>,
                before: Local): Outcome
  {
    match Select(o)
    case Err(e) => Outcome([], before, Some(e))
    case Ok(None) => Outcome([], before, None)
    case Ok(Some(req)) => Perform(req, respond, parseCsv, before)
  }

  /** The `__main__` block after `parse_args`. */
  method Dispatch(o: Options, db: Client, host: Host) returns (failure: Option<Error>)
    modifies db, host
    ensures var e := Plan(o, db.respond, host.parseCsv, old(host.State()));
            db.log == old(db.log) + e.calls && host.State() == e.after && failure == e.failure
  {
    failure := None;
    if TruthyName(o.sync) {
      SyncCollection(db, host, o.sync.value);
    } else if TruthyList(o.delete) {
      var a := o.delete.value;
      if |a| < 2 {
        return Some(IndexError(1, |a|));
      }
      DeleteDocument(db, host, a[0], a[1]);
    } else if TruthyList(o.add) {
      var a := o.add.value;
      AddDocument(db, host, a[0], a[1..]);
    } else if TruthyList(o.update) {
      var a := o.update.value;
      if |a| < 2 {
        return Some(IndexError(1, |a|));
      }
      UpdateDocument(db, host, a[0], a[1], a[2..]);
    } else if TruthyList(o.csv) {
      var a := o.csv.value;
      if |a| < 2 {
        return Some(IndexError(1, |a|));
      }
      failure := AddFromCsv(db, host, a[0], a[1]);
    } else if TruthyList(o.query) {
      var a := o.query.value;
      failure := QueryCollection(db, host, a[0], a[1..]);
    }
  }

  /** The options with every one but the one at position k of the dispatch order
      removed. */
  function Keep(o: Options, k: nat): Options
  {
    Options(if k == 0 then o.sync else None,
            if k == 1 then o.delete else None,
            if k == 2 then o.add else None,
            if k == 3 then o.update else None,
            if k == 4 then o.csv else None,
            if k == 5 then o.query else None)
  }

  /** Exactly one operation runs: every option but the chosen one could be dropped
      without changing anything the run does. */
  lemma OnlyChosenMatters(o: Options, respond: Call -> seq<Doc>, parseCsv: string -> seq<Row>,
                          before: Local)
    ensures Plan(o, respond, parseCsv, before) == Plan(Keep(o, Chosen(o)), respond, parseCsv, before)
  {
    ChosenCases(o);
    ChosenCases(Keep(o, Chosen(o)));
  }

  /** Every failure the model knows of is raised before the first store call and
      before any local change. */
  lemma FailureLeavesNoTrace(o: Options, respond: Call -> seq<Doc>, parseCsv: string -> seq<Row>,
                             before: Local)
    ensures var e := Plan(o, respond, parseCsv, before);
            e.failure.Some? ==> e.calls == [] && e.after == before
  {
  }

  /** With no option given, the run makes no store call, changes nothing and ends
      normally. */
  lemma NothingGivenNothingDone(o: Options, respond: Call -> seq<Doc>, parseCsv: string -> seq<Row>,
                                before: Local)
    requires Chosen(o) == 6
    ensures Plan(o, respond, parseCsv, before) == Outcome([], before, None)
  {
  }

  /** `--sync ""` is falsy, so the chain goes on to the next option. */
  lemma EmptySyncNameIgnored(o: Options)
    requires o.sync == Some("")
    ensures Select(o) == Select(o.(sync := None))
  {
  }

  /** `--sync name` streams that collection once and rewrites its file. */
  lemma SyncArguments(o: Options, respond: Call -> seq<Doc>, parseCsv: string -> seq<Row>,
                      before: Local)
    requires Chosen(o) == 0
    ensures var e := Plan(o, respond, parseCsv, before);
            var name := o.sync.value;
            && e.calls == [Stream(name)] && e.failure == None
            && e.after.dirs == before.dirs + {SYNC_DIR} && e.after.stdout == before.stdout
            && e.after.files == before.files[SyncPath(name) := Listing(respond(Stream(name)))]
  {
  }

  /** `--delete c id` deletes document id of collection c. */
  lemma DeleteArguments(o: Options, respond: Call -> seq<Doc>, parseCsv: string -> seq<Row>,
                        before: Local)
    requires Chosen(o) == 1 && |o.delete.value| >= 2
    ensures var a := o.delete.value;
            Plan(o, respond, parseCsv, before) == Outcome([Delete(a[0], a[1])], before, None)
  {
  }

  /** `--add c k0 v0 ...` uses the first value as the collection and pairs all the rest. */
  lemma AddArguments(o: Options, respond: Call -> seq<Doc>, parseCsv: string -> seq<Row>,
                     before: Local)
    requires Chosen(o) == 2
    ensures var a := o.add.value;
            Plan(o, respond, parseCsv, before) == Outcome([Add(a[0], FieldData(a[1..]))], before, None)
  {
  }

  /** `--update c id k0 v0 ...` uses the first value as the collection, the second as
      the document id, and pairs only the values after those. */
  lemma UpdateArguments(o: Options, respond: Call -> seq<Doc>, parseCsv: string -> seq<Row>,
                        before: Local)
    requires Chosen(o) == 3 && |o.update.value| >= 2
    ensures var a := o.update.value;
            Plan(o, respond, parseCsv, before) == Outcome([SetMerge(a[0], a[1], FieldData(a[2..]))], before, None)
  {
    ChosenCases(o);
  }

  /** `--update c` with no document id fails at `args.update[1]`, before any store call. */
  lemma UpdateWithoutIdFails(o: Options, respond: Call -> seq<Doc>, parseCsv: string -> seq<Row>,
                             before: Local)
    requires Chosen(o) == 3 && |o.update.value| == 1
    ensures Plan(o, respond, parseCsv, before) == Outcome([], before, Some(IndexError(1, 1)))
  {
  }

  /** `--csv c path` adds one document per row of the file, in row order; a missing
      file fails before any store call. */
  lemma CsvArguments(o: Options, respond: Call -> seq<Doc>, parseCsv: string -> seq<Row>,
                     before: Local)
    requires Chosen(o) == 4 && |o.csv.value| >= 2
    ensures var a := o.csv.value;
            var e := Plan(o, respond, parseCsv, before);
            && e.after == before
            && (a[1] !in before.files ==> e.calls == [] && e.failure == Some(FileNotFound(a[1])))
            && (a[1] in before.files ==>
                  var rows := parseCsv(before.files[a[1]]);
                  && e.failure == None && |e.calls| == |rows|
                  && forall i :: 0 <= i < |rows| ==> e.calls[i] == Add(a[0], rows[i]))
  {
    ChosenCases(o);
  }

  /** `--query c f0 op0 v0 ...` streams collection c narrowed by the triples of the rest,
      in list order, and prints the matches; a rest whose length is not a multiple of
      three fails before the store is asked and prints nothing. */
  lemma QueryArguments(o: Options, respond: Call -> seq<Doc>, parseCsv: string -> seq<Row>,
                       before: Local)
    requires Chosen(o) == 5
    ensures var a := o.query.value;
            var rest := a[1..];
            var e := Plan(o, respond, parseCsv, before);
            && (|rest| % 3 != 0 ==>
                  e == Outcome([], before, Some(UnpackError(3, |rest| % 3))))
            && (|rest| % 3 == 0 ==>
                  && e.failure == None && |e.calls| == 1 && e.calls[0].QueryStream?
                  && var q := e.calls[0].query;
                  && q.collection == a[0] && |q.filters| == |rest| / 3
                  && (forall k :: 0 <= k < |q.filters| ==>
                        q.filters[k] == Filter(rest[3 * k], rest[3 * k + 1], rest[3 * k + 2]))
                  && e.after == before.(stdout := before.stdout + Listing(respond(QueryStream(q)))))
  {
  }

  /** `--add users name Alice age 30` adds one document `{name: "Alice", age: "30"}` to
      `users`. */
  lemma AddScenario(respond: Call -> seq<Doc>, parseCsv: string -> seq<Row>, before: Local)
    ensures var o := Options(None, None, Some(["users", "name", "Alice", "age", "30"]), None, None, None);
            Plan(o, respond, parseCsv, before) ==
              Outcome([Add("users", map["name" := "Alice", "age" := "30"])], before, None)
  {
    var a := ["users", "name", "Alice", "age", "30"];
    assert a[1..] == ["name", "Alice", "age", "30"];
    AddScenarioData();
  }

  /** `--update users abc123 status done` merges `{status: "done"}` into document
      `abc123` of `users`. */
  lemma UpdateScenario(respond: Call -> seq<Doc>, parseCsv: string -> seq<Row>, before: Local)
    ensures var o := Options(None, None, None, Some(["users", "abc123", "status", "done"]), None, None);
            Plan(o, respond, parseCsv, before) ==
              Outcome([SetMerge("users", "abc123", map["status" := "done"])], before, None)
  {
  }

  /** `--query orders status == shipped` streams `orders` narrowed by the one filter
      `status == shipped` and prints the answer's lines. */
  lemma QueryScenario(respond: Call -> seq<Doc>, parseCsv: string -> seq<Row>, before: Local)
    ensures var o := Options(None, None, None, None, None, Some(["orders", "status", "==", "shipped"]));
            var q := Query("orders", [Filter("status", "==", "shipped")]);
            Plan(o, respond, parseCsv, before) ==
              Outcome([QueryStream(q)], before.(stdout := before.stdout + Listing(respond(QueryStream(q)))), None)
  {
    var a := ["orders", "status", "==", "shipped"];
    assert a[1..] == ["status", "==", "shipped"];
    QueryScenarioFilters();
  }
}
