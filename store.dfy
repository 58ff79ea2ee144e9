/** The document store as the tool sees it: a collaborator that is handed calls and
    answers reads with documents. Its own semantics (what a write changes, which
    documents a filter matches) stay behind the `respond` function. */
module Store {
  import opened Conditions

  /** A streamed document: its id and the text of its field mapping as Python
      renders it; that rendering is the client library's and is kept opaque. */
  datatype Doc = Doc(id: string, fields: string)

  /** One primitive call into the store. */
  datatype Call =
    | Stream(collection: string)                                         // collection(c).stream()
    | Delete(collection: string, docId: string)                          // document(id).delete()
    | Add(collection: string, data: map<string, string>)                 // collection(c).add(data)
    | SetMerge(collection: string, docId: string, data: map<string, string>)  // document(id).set(data, merge=True)
    | QueryStream(query: Query)                                          // query.stream()

  /** `f'{doc.id}: {doc.to_dict()}'`, the text shown for one document. */
  function Shown(d: Doc): string
  {
    d.id + ": " + d.fields
  }

  /** One output line: the shown text and a newline. */
  function Line(d: Doc): string
  {
    Shown(d) + "\n"
  }

  /** The lines of a sequence of documents, in sequence order. */
  function Listing(docs: seq<Doc>): string
  {
    if docs == [] then "" else Listing(docs[..|docs| - 1]) + Line(docs[|docs| - 1])
  }

  /** Listing two runs of documents one after the other gives their listings one
      after the other. */
  lemma {:induction false} ListingAppend(a: seq<Doc>, b: seq<Doc>)
    ensures Listing(a + b) == Listing(a) + Listing(b)
  {
    if b == [] {
      assert a + b == a;
    } else {
      var init := b[..|b| - 1];
      assert (a + b)[..|a + b| - 1] == a + init;
      ListingAppend(a, init);
    }
  }

  /** Document k's line comes after the lines of the documents before it and before
      the lines of the documents after it. */
  lemma {:induction false} ListingAt(docs: seq<Doc>, k: nat)
    requires k < |docs|
    ensures Listing(docs) == Listing(docs[..k]) + Line(docs[k]) + Listing(docs[k + 1..])
    decreases |docs|
  {
    var init := docs[..|docs| - 1];
    if k == |docs| - 1 {
      assert docs[k + 1..] == [];
      assert init == docs[..k];
    } else {
      ListingAt(init, k);
      assert init[..k] == docs[..k];
      assert docs[k + 1..][..|docs[k + 1..]| - 1] == init[k + 1..];
    }
  }

  /** When no id or rendering holds a newline, the listing has exactly one newline per
      document. */
  lemma {:induction false} ListingLineCount(docs: seq<Doc>)
    requires forall k :: 0 <= k < |docs| ==> '\n' !in docs[k].id && '\n' !in docs[k].fields
    ensures multiset(Listing(docs))['\n'] == |docs|
  {
    if docs != [] {
      var last := docs[|docs| - 1];
      ListingLineCount(docs[..|docs| - 1]);
      assert multiset(last.id)['\n'] == 0 && multiset(last.fields)['\n'] == 0;
      assert multiset(Line(last)) == multiset(last.id) + multiset(": ") + multiset(last.fields) + multiset("\n");
    }
  }

  /** The store client: an opaque `respond` answers reads, and `log` records every
      call made, in order. */
  class Client {
    const respond: Call -> seq<Doc>
    var log: seq<Call>

    constructor (respond: Call -> seq<Doc>)
      ensures this.respond == respond && log == []
    {
      this.respond := respond;
      log := [];
    }

    method StreamDocs(collection: string) returns (docs: seq<Doc>)
      modifies this
      ensures log == old(log) + [Stream(collection)]
      ensures docs == respond(Stream(collection))
    {
      log := log + [Stream(collection)];
      docs := respond(Stream(collection));
    }

    method DeleteDoc(collection: string, docId: string)
      modifies this
      ensures log == old(log) + [Delete(collection, docId)]
    {
      log := log + [Delete(collection, docId)];
    }

    method AddDoc(collection: string, data: map<string, string>)
      modifies this
      ensures log == old(log) + [Add(collection, data)]
    {
      log := log + [Add(collection, data)];
    }

    method MergeDoc(collection: string, docId: string, data: map<string, string>)
      modifies this
      ensures log == old(log) + [SetMerge(collection, docId, data)]
    {
      log := log + [SetMerge(collection, docId, data)];
    }

    method StreamMatching(query: Query) returns (docs: seq<Doc>)
      modifies this
      ensures log == old(log) + [QueryStream(query)]
      ensures docs == respond(QueryStream(query))
    {
      log := log + [QueryStream(query)];
      docs := respond(QueryStream(query));
    }
  }
}
