/** Retrieval-augmented generation support: ingesting the `.txt` files of a
    folder into the vector store, and fetching the documents nearest to a query.
    The folder is given as its listing of (name, text) entries; the vector store
    is a map from document id to stored text and metadata, and its
    nearest-neighbour search is an abstract function. Embeddings are not
    modelled. */
module RagService {
  import opened Wrappers
  import opened Strings

  datatype FileEntry = FileEntry(name: string, text: string)

  /** `{"source": name}`. */
  datatype Metadata = Metadata(source: string)

  /** What the collection keeps under one id. */
  datatype StoredDoc = StoredDoc(document: string, metadata: Metadata)

  /** `{"status": "no_folder"}`, `{"status": "no_docs"}` or
      `{"status": "ingested", "count": n}`. */
  datatype IngestStatus = NoFolder | NoDocs | Ingested(count: nat)

  /** One document to ingest: its id (the file name) and its stripped text. */
  datatype Doc = Doc(id: string, text: string)

  // ---------------------------------------------------------------------------
  // Selecting and ordering the files
  // ---------------------------------------------------------------------------

  /** The glob pattern `*.txt`. */
  predicate IsTxt(name: string)
  {
    |name| >= 4 && name[|name| - 4..] == ".txt"
  }

  /** The entries `glob("*.txt")` yields, in listing order. */
  function TxtFiles(entries: seq<FileEntry>): (r: seq<FileEntry>)
    ensures forall f :: f in r <==> f in entries && IsTxt(f.name)
  {
    if entries == [] then []
    else (if IsTxt(entries[0].name) then [entries[0]] else []) + TxtFiles(entries[1..])
  }

  predicate SortedByName(fs: seq<FileEntry>)
  {
    forall i, j | 0 <= i < j < |fs| :: LexLe(fs[i].name, fs[j].name)
  }

  function InsertByName(f: FileEntry, fs: seq<FileEntry>): (r: seq<FileEntry>)
    ensures multiset(r) == multiset(fs) + multiset{f}
  {
    if fs == [] then [f]
    else if LexLe(f.name, fs[0].name) then [f] + fs
    else
      var rest := InsertByName(f, fs[1..]);
      assert fs == [fs[0]] + fs[1..];
      [fs[0]] + rest
  }

  /** Inserting a name no smaller than the head into the tail leaves every
      entry no smaller than the head. */
  lemma InsertAfterHead(f: FileEntry, fs: seq<FileEntry>)
    requires SortedByName(fs) && fs != [] && LexLe(fs[0].name, f.name)
    ensures forall j | 0 <= j < |InsertByName(f, fs[1..])| ::
      LexLe(fs[0].name, InsertByName(f, fs[1..])[j].name)
  {
    var rest := InsertByName(f, fs[1..]);
    forall j | 0 <= j < |rest| ensures LexLe(fs[0].name, rest[j].name) {
      assert rest[j] in multiset(rest);
      if rest[j] != f {
        assert rest[j] in multiset(fs[1..]);
        var k :| 0 <= k < |fs[1..]| && fs[1..][k] == rest[j];
        assert fs[k + 1] == rest[j];
      }
    }
  }

  lemma {:induction false} InsertKeepsSorted(f: FileEntry, fs: seq<FileEntry>)
    requires SortedByName(fs)
    ensures SortedByName(InsertByName(f, fs))
    decreases |fs|
  {
    if fs == [] {
    } else if LexLe(f.name, fs[0].name) {
      var r := [f] + fs;
      forall i, j | 0 <= i < j < |r| ensures LexLe(r[i].name, r[j].name) {
        if i == 0 && j > 1 {
          LexLeTransitive(f.name, fs[0].name, fs[j - 1].name);
        }
      }
    } else {
      var rest := InsertByName(f, fs[1..]);
      InsertKeepsSorted(f, fs[1..]);
      LexLeTotal(f.name, fs[0].name);
      InsertAfterHead(f, fs);
      var r := [fs[0]] + rest;
      forall i, j | 0 <= i < j < |r| ensures LexLe(r[i].name, r[j].name) {
        if i > 0 {
          assert r[i] == rest[i - 1] && r[j] == rest[j - 1];
        } else {
          assert r[j] == rest[j - 1];
          assert LexLe(fs[0].name, rest[j - 1].name);
        }
      }
    }
  }

  /** `sorted(...)` on the globbed paths: the same entries, ordered by name. */
  function SortByName(fs: seq<FileEntry>): (r: seq<FileEntry>)
    ensures SortedByName(r)
    ensures multiset(r) == multiset(fs)
  {
    if fs == [] then []
    else
      var rest := SortByName(fs[1..]);
      InsertKeepsSorted(fs[0], rest);
      assert fs == [fs[0]] + fs[1..];
      InsertByName(fs[0], rest)
  }

  // ---------------------------------------------------------------------------
  // The ingestion loop
  // ---------------------------------------------------------------------------

  /** What one file contributes: nothing when its text is all whitespace,
      which is when its stripped text is empty. */
  function DocOf(f: FileEntry): seq<Doc>
  {
    if AllSpace(f.text) then [] else [Doc(f.name, Strip(f.text))]
  }

  /** The documents the loop collects from `files`, in order. */
  function Documents(files: seq<FileEntry>): seq<Doc>
    decreases |files|
  {
    if files == [] then []
    else Documents(files[..|files| - 1]) + DocOf(files[|files| - 1])
  }

  /** The three parallel lists the loop of `ingest_documents_from_folder` builds
      from the sorted files: for every file whose stripped text is non-empty,
      its name as id, its stripped text as document, and its name as source. */
  method CollectDocuments(files: seq<FileEntry>)
    returns (ids: seq<string>, docs: seq<string>, metadatas: seq<Metadata>)
    ensures |ids| == |docs| == |metadatas| == |Documents(files)|
    ensures forall k | 0 <= k < |ids| ::
      Documents(files)[k] == Doc(ids[k], docs[k]) && metadatas[k] == Metadata(ids[k])
  {
    ids, docs, metadatas := [], [], [];
    for i := 0 to |files|
      invariant |ids| == |docs| == |metadatas| == |Documents(files[..i])|
      invariant forall k | 0 <= k < |ids| ::
        Documents(files[..i])[k] == Doc(ids[k], docs[k]) && metadatas[k] == Metadata(ids[k])
    {
      var f := files[i];
      var text := Strip(f.text);
      assert files[..i + 1][..i] == files[..i];
      if text == "" {
        continue;
      }
      ids := ids + [f.name];
      docs := docs + [text];
      metadatas := metadatas + [Metadata(f.name)];
    }
    assert files[..|files|] == files;
  }

  /** A document is collected exactly when some file produces it, that is,
      has that name and that non-empty stripped text. */
  lemma {:induction false} DocumentsProvenance(files: seq<FileEntry>, d: Doc)
    ensures d in Documents(files) <==> exists f :: f in files && d in DocOf(f)
    decreases |files|
  {
    if files != [] {
      var init := files[..|files| - 1];
      var last := files[|files| - 1];
      DocumentsProvenance(init, d);
      assert Documents(files) == Documents(init) + DocOf(last);
      if d in Documents(files) {
        if d in Documents(init) {
          var f :| f in init && d in DocOf(f);
          assert f in files;
        } else {
          assert d in DocOf(last) && last in files;
        }
      }
      if f :| f in files && d in DocOf(f) {
        var k :| 0 <= k < |files| && files[k] == f;
        if k < |files| - 1 {
          assert init[k] == f;
        }
      }
    }
  }

  /** What producing a document means. */
  lemma DocOfShape(f: FileEntry, d: Doc)
    ensures d in DocOf(f) <==> Strip(f.text) != "" && d == Doc(f.name, Strip(f.text))
  {
  }

  /** Every collected document is named after a file at some position. */
  lemma {:induction false} DocumentSource(files: seq<FileEntry>, i: nat)
    requires i < |Documents(files)|
    ensures exists k :: 0 <= k < |files| && files[k].name == Documents(files)[i].id
    decreases |files|
  {
    var init := files[..|files| - 1];
    var last := files[|files| - 1];
    assert Documents(files) == Documents(init) + DocOf(last);
    if i < |Documents(init)| {
      DocumentSource(init, i);
      var k :| 0 <= k < |init| && init[k].name == Documents(init)[i].id;
      assert files[k] == init[k];
    } else {
      assert Documents(files)[i] == DocOf(last)[0];
      assert files[|files| - 1].name == Documents(files)[i].id;
    }
  }

  /** A file with some non-whitespace text always contributes a document. */
  lemma {:induction false} DocumentsFromNonBlank(files: seq<FileEntry>, k: nat)
    requires k < |files| && !AllSpace(files[k].text)
    ensures Documents(files) != []
    decreases |files|
  {
    var init := files[..|files| - 1];
    var last := files[|files| - 1];
    assert Documents(files) == Documents(init) + DocOf(last);
    if k < |files| - 1 {
      assert init[k] == files[k];
      DocumentsFromNonBlank(init, k);
    }
  }

  /** Files that are all whitespace contribute nothing. */
  lemma {:induction false} DocumentsFromBlank(files: seq<FileEntry>)
    requires forall k | 0 <= k < |files| :: AllSpace(files[k].text)
    ensures Documents(files) == []
    decreases |files|
  {
    if files != [] {
      var init := files[..|files| - 1];
      assert forall k | 0 <= k < |init| :: init[k] == files[k];
      DocumentsFromBlank(init);
      assert DocOf(files[|files| - 1]) == [];
    }
  }

  /** Nothing is collected exactly when every file is blank. */
  lemma DocumentsEmpty(files: seq<FileEntry>)
    ensures Documents(files) == [] <==> forall k | 0 <= k < |files| :: AllSpace(files[k].text)
  {
    if k :| 0 <= k < |files| && !AllSpace(files[k].text) {
      DocumentsFromNonBlank(files, k);
    } else {
      DocumentsFromBlank(files);
    }
  }

  /** Collected documents keep the file order, so sorted files give ids in
      name order. */
  lemma {:induction false} DocumentsSorted(files: seq<FileEntry>)
    requires SortedByName(files)
    ensures forall i, j | 0 <= i < j < |Documents(files)| ::
      LexLe(Documents(files)[i].id, Documents(files)[j].id)
    decreases |files|
  {
    if files != [] {
      var init := files[..|files| - 1];
      var last := files[|files| - 1];
      assert SortedByName(init) by {
        forall i, j | 0 <= i < j < |init| ensures LexLe(init[i].name, init[j].name) {
          assert init[i] == files[i] && init[j] == files[j];
        }
      }
      DocumentsSorted(init);
      var ds := Documents(files);
      var di := Documents(init);
      assert ds == di + DocOf(last);
      forall i, j | 0 <= i < j < |ds| ensures LexLe(ds[i].id, ds[j].id) {
        if j >= |di| {
          assert ds[j].id == last.name;
          assert ds[i] == di[i];
          DocumentSource(init, i);
          var k :| 0 <= k < |init| && init[k].name == di[i].id;
          assert files[k] == init[k];
        } else {
          assert ds[i] == di[i] && ds[j] == di[j];
        }
      }
    }
  }

  // ---------------------------------------------------------------------------
  // The vector store
  // ---------------------------------------------------------------------------

  /** The collection after `delete(ids=ids)`. */
  function RemoveIds(m: map<string, StoredDoc>, ids: seq<string>): map<string, StoredDoc>
  {
    map k | k in m && k !in ids :: m[k]
  }

  /** The collection after `add(documents, metadatas, ids)`, one record at a
      time in list order. */
  function AddRecords(m: map<string, StoredDoc>, ids: seq<string>, docs: seq<string>,
                      metadatas: seq<Metadata>): map<string, StoredDoc>
    requires |ids| == |docs| == |metadatas|
    decreases |ids|
  {
    if ids == [] then m
    else AddRecords(m[ids[0] := StoredDoc(docs[0], metadatas[0])], ids[1..], docs[1..], metadatas[1..])
  }

  /** After the add, the stored ids are the old ones and the given ones; each
      given id holds the document and metadata of one of its positions, and
      every other id keeps its record. */
  lemma {:induction false} AddRecordsEffect(m: map<string, StoredDoc>, ids: seq<string>,
                                            docs: seq<string>, metadatas: seq<Metadata>)
    requires |ids| == |docs| == |metadatas|
    ensures var r := AddRecords(m, ids, docs, metadatas);
      && (forall k :: k in r <==> k in m || k in ids)
      && (forall k | k in m && k !in ids :: r[k] == m[k])
      && (forall k | k in ids ::
            exists j :: 0 <= j < |ids| && ids[j] == k && r[k] == StoredDoc(docs[j], metadatas[j]))
    decreases |ids|
  {
    if ids != [] {
      var m' := m[ids[0] := StoredDoc(docs[0], metadatas[0])];
      var ids', docs', metas' := ids[1..], docs[1..], metadatas[1..];
      AddRecordsEffect(m', ids', docs', metas');
      var r := AddRecords(m, ids, docs, metadatas);
      assert r == AddRecords(m', ids', docs', metas');
      assert ids == [ids[0]] + ids';
      forall k ensures k in r <==> k in m || k in ids {
        assert k in ids <==> k == ids[0] || k in ids';
      }
      forall k | k in m && k !in ids ensures r[k] == m[k] {
        assert k !in ids' && k != ids[0];
      }
      forall k | k in ids
        ensures exists j :: 0 <= j < |ids| && ids[j] == k && r[k] == StoredDoc(docs[j], metadatas[j])
      {
        if k in ids' {
          var j :| 0 <= j < |ids'| && ids'[j] == k && r[k] == StoredDoc(docs'[j], metas'[j]);
          assert ids[j + 1] == k && docs[j + 1] == docs'[j] && metadatas[j + 1] == metas'[j];
        } else {
          assert k == ids[0] && r[k] == m'[k];
        }
      }
    }
  }

  /** The Chroma collection, reduced to what it stores per id. */
  class VectorStore {
    var records: map<string, StoredDoc>

    constructor ()
      ensures records == map[]
    {
      records := map[];
    }

    /** `collection.delete(ids=ids)`. */
    method Delete(ids: seq<string>)
      modifies this
      ensures records == RemoveIds(old(records), ids)
    {
      records := RemoveIds(records, ids);
    }

    /** `collection.add(documents=docs, metadatas=metadatas, ids=ids)`. */
    method Add(ids: seq<string>, docs: seq<string>, metadatas: seq<Metadata>)
      requires |ids| == |docs| == |metadatas|
      modifies this
      ensures records == AddRecords(old(records), ids, docs, metadatas)
    {
      records := AddRecords(records, ids, docs, metadatas);
    }
  }

  function Ids(ds: seq<Doc>): seq<string>
  {
    seq(|ds|, k requires 0 <= k < |ds| => ds[k].id)
  }

  function Texts(ds: seq<Doc>): seq<string>
  {
    seq(|ds|, k requires 0 <= k < |ds| => ds[k].text)
  }

  function Sources(ds: seq<Doc>): seq<Metadata>
  {
    seq(|ds|, k requires 0 <= k < |ds| => Metadata(ds[k].id))
  }

  /** The documents an ingest of this listing writes, in the order it writes
      them. */
  function IngestPlan(listing: seq<FileEntry>): seq<Doc>
  {
    Documents(SortByName(TxtFiles(listing)))
  }

  /** The collection after a successful ingest of `ds`: old records with the
      same ids are deleted, then the new ones added. */
  function Reingested(m: map<string, StoredDoc>, ds: seq<Doc>): map<string, StoredDoc>
  {
    AddRecords(RemoveIds(m, Ids(ds)), Ids(ds), Texts(ds), Sources(ds))
  }

  /** `ingest_documents_from_folder(folder)`; `listing` is `None` when the path
      does not exist or is not a directory. */
  method IngestDocumentsFromFolder(listing: Option<seq<FileEntry>>, store: VectorStore)
    returns (status: IngestStatus)
    modifies store
    ensures listing.None? ==> status == NoFolder && store.records == old(store.records)
    ensures listing.Some? && IngestPlan(listing.value) == [] ==>
      status == NoDocs && store.records == old(store.records)
    ensures listing.Some? && IngestPlan(listing.value) != [] ==>
      && status == Ingested(|IngestPlan(listing.value)|)
      && store.records == Reingested(old(store.records), IngestPlan(listing.value))
  {
    if listing.None? {
      return NoFolder;
    }
    var files := SortByName(TxtFiles(listing.value));
    var ids, docs, metadatas := CollectDocuments(files);
    ghost var plan := IngestPlan(listing.value);
    assert ids == Ids(plan) && docs == Texts(plan) && metadatas == Sources(plan);
    if docs == [] {
      return NoDocs;
    }
    store.Delete(ids);
    store.Add(ids, docs, metadatas);
    status := Ingested(|docs|);
  }

  /** After an ingest of a listing, the ids stored are the old ones and the
      ingested ones; a record under an ingested id names it as its source and
      holds the stripped, non-empty text of a `.txt` file of that name; records
      under other ids are untouched. */
  lemma IngestedRecords(m: map<string, StoredDoc>, listing: seq<FileEntry>, name: string)
    ensures var r := Reingested(m, IngestPlan(listing));
      && (name in r <==> name in m || name in Ids(IngestPlan(listing)))
      && (name in m && name !in Ids(IngestPlan(listing)) ==> r[name] == m[name])
      && (name in Ids(IngestPlan(listing)) ==>
            r[name].metadata == Metadata(name)
            && exists f :: f in listing && IsTxt(f.name) && f.name == name
                           && Strip(f.text) == r[name].document && r[name].document != "")
  {
    var ds := IngestPlan(listing);
    var files := SortByName(TxtFiles(listing));
    var r := Reingested(m, ds);
    AddRecordsEffect(RemoveIds(m, Ids(ds)), Ids(ds), Texts(ds), Sources(ds));
    if name in Ids(ds) {
      var j :| 0 <= j < |ds| && Ids(ds)[j] == name && r[name] == StoredDoc(Texts(ds)[j], Sources(ds)[j]);
      var d := ds[j];
      assert d in ds;
      DocumentsProvenance(files, d);
      var f :| f in files && d in DocOf(f);
      DocOfShape(f, d);
      assert f in multiset(files);
      assert f in TxtFiles(listing);
    }
  }

  /** No file is lost: after an ingest every `.txt` file of the listing whose
      text is not all whitespace has a record under its name, and that record
      names the file as its source. */
  lemma IngestCoversFiles(m: map<string, StoredDoc>, listing: seq<FileEntry>)
    ensures var r := Reingested(m, IngestPlan(listing));
      forall f | f in listing && IsTxt(f.name) && !AllSpace(f.text) ::
        f.name in r && r[f.name].metadata == Metadata(f.name)
  {
    var ds := IngestPlan(listing);
    var files := SortByName(TxtFiles(listing));
    var r := Reingested(m, ds);
    AddRecordsEffect(RemoveIds(m, Ids(ds)), Ids(ds), Texts(ds), Sources(ds));
    forall f | f in listing && IsTxt(f.name) && !AllSpace(f.text)
      ensures f.name in r && r[f.name].metadata == Metadata(f.name)
    {
      assert f in TxtFiles(listing);
      assert f in multiset(files);
      var d := Doc(f.name, Strip(f.text));
      assert d in DocOf(f);
      DocumentsProvenance(files, d);
      var i :| 0 <= i < |ds| && ds[i] == d;
      assert Ids(ds)[i] == f.name;
      var j :| 0 <= j < |Ids(ds)| && Ids(ds)[j] == f.name
               && r[f.name] == StoredDoc(Texts(ds)[j], Sources(ds)[j]);
      assert Sources(ds)[j] == Metadata(f.name);
    }
  }

  /** Ingesting the same documents twice leaves the collection as one ingest
      does: the delete step removes every id the add step writes. */
  lemma IngestIdempotent(m: map<string, StoredDoc>, ds: seq<Doc>)
    ensures Reingested(Reingested(m, ds), ds) == Reingested(m, ds)
  {
    var once := Reingested(m, ds);
    AddRecordsEffect(RemoveIds(m, Ids(ds)), Ids(ds), Texts(ds), Sources(ds));
    assert RemoveIds(once, Ids(ds)) == RemoveIds(m, Ids(ds));
  }

  // ---------------------------------------------------------------------------
  // The reported count
  // ---------------------------------------------------------------------------

  /** The number of `.txt` entries of a listing whose text is not all
      whitespace, which is when its stripped text is non-empty. */
  function CountNonBlankTxt(listing: seq<FileEntry>): nat
  {
    if listing == [] then 0
    else (if IsTxt(listing[0].name) && !AllSpace(listing[0].text) then 1 else 0)
         + CountNonBlankTxt(listing[1..])
  }

  function CountNonBlank(fs: seq<FileEntry>): nat
  {
    if fs == [] then 0
    else (if !AllSpace(fs[0].text) then 1 else 0) + CountNonBlank(fs[1..])
  }

  lemma {:induction false} CountAppend(a: seq<FileEntry>, b: seq<FileEntry>)
    ensures CountNonBlank(a + b) == CountNonBlank(a) + CountNonBlank(b)
    decreases |a|
  {
    if a == [] {
      assert a + b == b;
    } else {
      CountAppend(a[1..], b);
      assert (a + b)[0] == a[0];
      assert (a + b)[1..] == a[1..] + b;
    }
  }

  lemma {:induction false} CountTxtFiles(listing: seq<FileEntry>)
    ensures CountNonBlank(TxtFiles(listing)) == CountNonBlankTxt(listing)
    decreases |listing|
  {
    if listing != [] {
      CountTxtFiles(listing[1..]);
      var head := if IsTxt(listing[0].name) then [listing[0]] else [];
      CountAppend(head, TxtFiles(listing[1..]));
    }
  }

  lemma {:induction false} CountInsert(f: FileEntry, fs: seq<FileEntry>)
    ensures CountNonBlank(InsertByName(f, fs)) == CountNonBlank([f] + fs)
    decreases |fs|
  {
    if fs != [] && !LexLe(f.name, fs[0].name) {
      CountInsert(f, fs[1..]);
      var rest := InsertByName(f, fs[1..]);
      assert ([fs[0]] + rest)[1..] == rest;
      assert ([f] + fs[1..])[1..] == fs[1..];
      assert ([f] + fs)[1..] == fs;
    }
  }

  lemma {:induction false} CountSort(fs: seq<FileEntry>)
    ensures CountNonBlank(SortByName(fs)) == CountNonBlank(fs)
    decreases |fs|
  {
    if fs != [] {
      CountSort(fs[1..]);
      var rest := SortByName(fs[1..]);
      CountInsert(fs[0], rest);
      assert ([fs[0]] + rest)[1..] == rest;
    }
  }

  lemma {:induction false} DocumentsCount(fs: seq<FileEntry>)
    ensures |Documents(fs)| == CountNonBlank(fs)
    decreases |fs|
  {
    if fs != [] {
      DocumentsCount(fs[..|fs| - 1]);
      CountLast(fs);
      CountSingle(fs[|fs| - 1]);
    }
  }

  /** The count splits off the last file, as `Documents` does. */
  lemma CountLast(fs: seq<FileEntry>)
    requires fs != []
    ensures CountNonBlank(fs) == CountNonBlank(fs[..|fs| - 1]) + CountNonBlank([fs[|fs| - 1]])
  {
    CountAppend(fs[..|fs| - 1], [fs[|fs| - 1]]);
    assert fs[..|fs| - 1] + [fs[|fs| - 1]] == fs;
  }

  lemma CountSingle(f: FileEntry)
    ensures CountNonBlank([f]) == |DocOf(f)|
  {
    assert [f][1..] == [];
  }

  /** The count an ingest reports is the number of non-blank `.txt` files in
      the folder. */
  lemma IngestCount(listing: seq<FileEntry>)
    ensures |IngestPlan(listing)| == CountNonBlankTxt(listing)
  {
    var txt := TxtFiles(listing);
    CountTxtFiles(listing);
    CountSort(txt);
    DocumentsCount(SortByName(txt));
  }

  // ---------------------------------------------------------------------------
  // Retrieval
  // ---------------------------------------------------------------------------

  /** The collection's nearest-neighbour search for a query and a result count:
      `None` when the query raises, otherwise the `documents` field of the
      result, one list per query embedding. */
  type Search = (string, nat) -> Option<seq<seq<string>>>

  /** The per-query lists concatenated in order. */
  function Flatten(lists: seq<seq<string>>): seq<string>
    decreases |lists|
  {
    if lists == [] then [] else Flatten(lists[..|lists| - 1]) + lists[|lists| - 1]
  }

  /** What `get_relevant_context(query, top_k)` returns. */
  function RelevantContext(query: string, topK: nat, search: Search): seq<string>
  {
    if query == "" then []
    else match search(query, topK)
      case None => []
      case Some(lists) => Flatten(lists)
  }

  /** `get_relevant_context(query, top_k)`: the nested loop that flattens the
      result lists. */
  method GetRelevantContext(query: string, topK: nat, search: Search) returns (docs: seq<string>)
    ensures docs == RelevantContext(query, topK, search)
  {
    if query == "" {
      return [];
    }
    var results := search(query, topK);
    if results.None? {
      return [];
    }
    var lists := results.value;
    docs := [];
    for i := 0 to |lists|
      invariant docs == Flatten(lists[..i])
    {
      for j := 0 to |lists[i]|
        invariant docs == Flatten(lists[..i]) + lists[i][..j]
      {
        docs := docs + [lists[i][j]];
      }
      assert lists[..i + 1][..i] == lists[..i];
      assert lists[i][..|lists[i]|] == lists[i];
    }
    assert lists[..|lists|] == lists;
  }

  /** Concatenation distributes over the outer list. */
  lemma {:induction false} FlattenAppend(a: seq<seq<string>>, b: seq<seq<string>>)
    ensures Flatten(a + b) == Flatten(a) + Flatten(b)
    decreases |b|
  {
    if b == [] {
      assert a + b == a;
    } else {
      var b' := b[..|b| - 1];
      FlattenAppend(a, b');
      assert (a + b)[..|a + b| - 1] == a + b';
      assert (a + b)[|a + b| - 1] == b[|b| - 1];
    }
  }

  /** A text is in the flattened context exactly when some per-query list
      holds it. */
  lemma {:induction false} FlattenMembership(lists: seq<seq<string>>, d: string)
    ensures d in Flatten(lists) <==> exists i :: 0 <= i < |lists| && d in lists[i]
    decreases |lists|
  {
    if lists != [] {
      var init := lists[..|lists| - 1];
      FlattenMembership(init, d);
      if i :| 0 <= i < |lists| && d in lists[i] {
        if i < |lists| - 1 {
          assert lists[i] == init[i];
        }
      }
      if i :| 0 <= i < |init| && d in init[i] {
        assert init[i] == lists[i];
      }
    }
  }

  /** An empty query and a failing search both give an empty context; a
      successful search gives every text it returned and nothing else. */
  lemma RelevantContextCases(query: string, topK: nat, search: Search, d: string)
    ensures query == "" ==> RelevantContext(query, topK, search) == []
    ensures search(query, topK).None? ==> RelevantContext(query, topK, search) == []
    ensures query != "" && search(query, topK).Some? ==>
      (d in RelevantContext(query, topK, search) <==>
        exists i :: 0 <= i < |search(query, topK).value| && d in search(query, topK).value[i])
  {
    if query != "" && search(query, topK).Some? {
      FlattenMembership(search(query, topK).value, d);
    }
  }
}
