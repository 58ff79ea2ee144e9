# firestoreCLI: the argument-decoding and dispatch layer, in Dafny

`main.py` is a command-line tool over a Firestore-style document store. The tool does no
storage work itself. It takes the parsed command-line options, chooses one of six
operations (sync, delete, add, update, csv import, query) in a fixed priority order,
slices that option's argument list into collection, document id and payload, and issues
the matching store call. There are two small parsers:

- Field lists become a mapping through `dict(zip(fields[::2], fields[1::2]))`.
- Query conditions are read three at a time as `(field, operator, value)` filters.

Results are printed, or for sync written to `collections/<name>.txt`.

The model keeps that structure:

- `Wrappers`: `Option`, `Result` and `Error`. `Error` holds the failures of the
  layer that the model captures: `IndexError`, the unpacking `ValueError` and
  `FileNotFoundError`.
- `Pairing`: `fields[start::2]`, `zip`, `dict` and the document data `FieldData`.
- `Conditions`: `Filter`, an immutable `Query` value (`collection(...)` and `where(...)`),
  the denoted filter list `Triples`, and `BuildQuery`, the imperative loop of
  `query_collection`.
- `Store`: the store as a collaborator. `Client` records every primitive `Call` in `log`.
  It answers reads through an opaque function `respond`.
  `Listing` is the text of one `<id>: <fields>` line per document.
- `Machine`: the local machine (`Host`). It holds directories, files and standard output,
  and an opaque CSV reader `parseCsv`.
- `Commands`: the operation `Request`, the pure account `Perform` of what each request
  does, and one method per Python function, each proved to do exactly what `Perform` says.
- `Cli`: the parsed `Options`, Python truthiness, the if/elif chain `Select`, the whole
  run `Plan`, the method `Dispatch`, and the end-to-end lemmas.

The store and the machine are inputs:

- `respond` is whatever the store returns for a `Stream` or `QueryStream` call.
- `parseCsv` is whatever `csv.DictReader` yields for a file's text.

A run's `Outcome` holds three things: the store calls in order, the local state after the
run, and the exception that ended it, if any.

A condition list whose length is not a multiple of three is not truncated. At
`main.py:86` the short last slice makes the tuple unpacking raise, before
`query.stream()` runs. The model raises `UnpackError(3, r)`, where `r` is the length of
that short slice.

## Model

| member | source | states |
|---|---|---|
| Pairing.EveryOtherFrom | main.py:45 | `s[start::2]` has `(n - start + 1) / 2` elements (none past the end), element k being `s[start + 2k]` |
| Pairing.Zip | main.py:45 | `zip` has the length of the shorter input and pairs element k of both |
| Pairing.Pairs | main.py:45 | `zip(fields[::2], fields[1::2])` has `len / 2` pairs (integer division), pair k being `(fields[2k], fields[2k+1])`; an unpaired trailing element is dropped |
| Pairing.DictOfKeys | main.py:45 | the keys of `dict(pairs)` are exactly the keys of the pairs |
| Pairing.DictOfLast | main.py:45 | for a key, `dict(pairs)` holds the value of that key's last pair |
| Pairing.DictOfDistinctSize | main.py:45 | with distinct keys, `dict(pairs)` has one entry per pair |
| Pairing.FieldDataKeys | main.py:45 | a name is a key of the document data iff it stands at an even position with a value after it |
| Pairing.FieldDataLastWins | main.py:45 | a key that occurs several times maps to the value after its last occurrence |
| Pairing.TrailingElementDropped | main.py:58 | an odd-length field list gives the same data as the list without its last element |
| Pairing.AppendOverrides | main.py:45 | appending `key value` to an even-length list overrides `key` and keeps every other entry |
| Pairing.FieldDataSize | main.py:45 | a list of 2k elements with distinct keys yields exactly k entries |
| Pairing.AddScenarioData | main.py:45 | `name Alice age 30` yields `{name: "Alice", age: "30"}` |
| Conditions.Triples | main.py:85-86 | the conditions denote filters iff their length is a multiple of 3; then there are `len / 3` filters, filter k being `(c[3k], c[3k+1], c[3k+2])`; otherwise unpacking fails with the short slice's length |
| Conditions.BuildQuery | main.py:84-87 | the loop yields the collection's query narrowed by filter k = `(c[3k], c[3k+1], c[3k+2])` in list order, exactly when the length is a multiple of 3, and otherwise the unpacking error; its result agrees with `Triples` |
| Conditions.QueryScenarioFilters | main.py:85-87 | `status == shipped` denotes the one filter `status == shipped` |
| Store.ListingAppend | main.py:22-23 | the lines of two runs of documents are the lines of the first followed by those of the second |
| Store.ListingAt | main.py:22-23 | document k's line comes after the lines of documents 0..k-1 and before those of the later documents |
| Store.ListingLineCount | main.py:22-23 | with no newline in ids or renderings, the text has exactly one newline per document |
| Store.Client.constructor | main.py:6 | a fresh client has made no call |
| Store.Client.StreamDocs | main.py:20 | `collection(c).stream()` is recorded and returns the store's answer to it |
| Store.Client.DeleteDoc | main.py:34 | `document(id).delete()` is recorded and nothing else |
| Store.Client.AddDoc | main.py:46 | `collection(c).add(data)` is recorded and nothing else |
| Store.Client.MergeDoc | main.py:59 | `document(id).set(data, merge=True)` is recorded and nothing else |
| Store.Client.StreamMatching | main.py:89 | `query.stream()` is recorded and returns the store's answer to that query |
| Machine.Host.MakeDir | main.py:16-17 | `mkdir(exist_ok=True)` adds the directory and changes nothing else |
| Machine.Host.OpenForWrite | main.py:21 | `open(path, 'w')` leaves the file existing and empty, whatever it held |
| Machine.Host.Write | main.py:23 | `f.write(text)` appends the text to that file only |
| Machine.Host.Print | main.py:90 | `print(text)` appends the text and a newline to standard output |
| Machine.Host.ReadCsv | main.py:70-71 | reading an existing file gives its parsed rows; a missing file gives `FileNotFound` |
| Commands.AddEach | main.py:72-73 | one `add` per row: call i adds row i to the collection |
| Commands.SyncCollection | main.py:8-23 | sync records one `stream` of the collection, creates `collections`, and sets `collections/<name>.txt` to the documents' lines in stream order; no other file changes |
| Commands.DeleteDocument | main.py:25-34 | delete records exactly one `delete` of that document |
| Commands.AddDocument | main.py:36-46 | add records exactly one `add` of the paired field data |
| Commands.UpdateDocument | main.py:48-59 | update records exactly one merge-`set` of the paired field data into that document |
| Commands.AddFromCsv | main.py:61-73 | csv import records one `add` per row of the file, in row order, or fails with `FileNotFound` before any call |
| Commands.QueryCollection | main.py:75-90 | query records one `stream` of the filtered query and prints one line per answer, in answer order; a malformed condition list fails with no call and no output |
| Commands.SyncFileLines | main.py:18-23 | after sync, the file holds document k's line between the lines of the documents before and after it |
| Commands.SyncEmptyCollection | main.py:21-23 | syncing an empty collection leaves an existing, empty file, overwriting any previous content |
| Cli.FirstSet | main.py:103-113 | the first true position: all earlier flags are false and it is true, or there is none |
| Cli.ChosenCases | main.py:103-113 | the branch taken is the first of sync, delete, add, update, csv, query whose value is truthy, or none |
| Cli.Select | main.py:103-114 | no request iff no option is truthy; otherwise the request is the first truthy one in the order sync, delete, add, update, csv, query; an index error `IndexError(1, 1)` arises exactly when the chosen option is delete, update or csv with a one-element list, so two or more elements never fail |
| Cli.Dispatch | main.py:103-114 | the if/elif chain makes exactly the calls and local changes of `Plan` and ends with its failure |
| Cli.OnlyChosenMatters | main.py:103-114 | exactly one operation runs: dropping every option but the chosen one changes nothing |
| Cli.FailureLeavesNoTrace | main.py:103-114 | every modelled failure comes before any store call and any local change |
| Cli.NothingGivenNothingDone | main.py:103-114 | with no truthy option there is no store call, no change and no failure |
| Cli.EmptySyncNameIgnored | main.py:103 | `--sync ""` is falsy and the chain goes on to the next option |
| Cli.SyncArguments | main.py:103-104 | `--sync name` streams `name` once, adds only the directory `collections`, and rewrites only `collections/<name>.txt` |
| Cli.DeleteArguments | main.py:105-106 | `--delete c id` makes exactly the call `Delete(c, id)` |
| Cli.AddArguments | main.py:107-108 | `--add` uses `args[0]` as the collection and pairs `args[1:]` |
| Cli.UpdateArguments | main.py:109-110 | `--update` uses `args[0]` as the collection and `args[1]` as the document id, and pairs only `args[2:]` |
| Cli.UpdateWithoutIdFails | main.py:110 | `--update c` with no id fails at `args.update[1]` before any store call |
| Cli.CsvArguments | main.py:111-112 | `--csv c path` adds one document per row, in row order, or fails before any call when the file is missing |
| Cli.QueryArguments | main.py:113-114 | `--query c ...` streams `c` narrowed by the triples of the rest in order and prints the answer; a rest of length not a multiple of 3 fails before the stream with nothing printed |
| Cli.AddScenario | main.py:107-108 | `--add users name Alice age 30` adds `{name: "Alice", age: "30"}` to `users` and nothing else, with no failure and no local change |
| Cli.UpdateScenario | main.py:109-110 | `--update users abc123 status done` merges `{status: "done"}` into `abc123` and nothing else, with no failure and no local change |
| Cli.QueryScenario | main.py:113-114 | `--query orders status == shipped` streams `orders` narrowed by `status == shipped` and prints the answer |

Helpers without contracts of their own are the definitions the rows above speak about:

- `Pairing.DictOf`, `Pairing.FieldData` and `Pairing.LastWith` (position i is a key's last pair).
- `Conditions.Collection` and `Conditions.Where`.
- `Store.Shown`, `Store.Line` and `Store.Listing`.
- `Commands.SyncPath` and `Commands.Perform`.
- `Cli.TruthyName` and `Cli.TruthyList`: Python truthiness of the tests `if args.sync:` to
  `elif args.query:` (main.py:103-113). None, the empty string and the empty list are false.
- `Cli.Flags`, `Cli.Chosen`, `Cli.Rank`, `Cli.Plan` and `Cli.Keep`.
- `Machine.Host.constructor`: the machine's starting state and its CSV reader.
- `Machine.Host.State`: the host's directories, files and standard output as one value.

## Left out

- The store's semantics are not modelled: what `add`, `set(merge=True)` and `delete`
  change, and which documents a filter matches. Writes are only recorded, and reads come
  from the opaque `respond`. The client library cannot be seen.
- Store and network failures (authentication, network, an id that does not exist) are
  not modelled, so store calls never fail here. A csv import that fails partway is
  therefore not modelled either.
- `stream()` is lazy in the client library. The model treats it as one call that
  returns the whole answer.
- `argparse` is left out: its `nargs` arity checks, its usage errors and its exit codes.
  The model takes the parsed option values as input. It raises `IndexError` wherever
  the source indexes a list too short for that index. `nargs=2` rules this out for
  delete and csv, but not for `--update` with one value.
- `csv.DictReader` is an opaque `parseCsv` from file text to rows.
- `repr` of `doc.to_dict()` is an opaque string per document.
- Output encoding is not modelled.
- Pairing.FieldData: a Python `dict` also keeps keys in first-insertion order. The model
  uses a `map`, because the store treats a document's fields as unordered.
- Commands.SyncPath: pathlib's rule that an absolute second component replaces the
  directory is not modelled. Neither is `open` failing when a collection name holds
  `/` and the nested directory is missing, nor `mkdir` failing when `collections` is a
  file. These are file-system behaviours of the platform.
- The literal `print` and the file handle's close are folded into `Host.Print` and
  `Host.Write`.
- `--query c` with no conditions streams `db.collection(c)` itself (main.py:84, main.py:89).
  That is the same request sync makes at main.py:20. The model records it as
  `QueryStream(Query(c, []))`, and `respond` is free to answer it differently from
  `Stream(c)`. The two call values stand for the same request.
- The client library's own checks in `where` (main.py:87) are not modelled: it rejects an
  unknown operator before any call, while the model goes on to stream.
- `open(csv_path)` (main.py:70) can also raise `IsADirectoryError` or `PermissionError`.
  The model reports only `FileNotFound`, or no failure.
