/**
  The document-to-vector ledger of src/core/index_manager.py.

  The FAISS flat index is modelled as the sequence of its vectors (`ntotal` is its length and a
  vector's id is its position); how the llama_index calls that embed documents, persist storage
  and save the files went is a parameter (`Indexing`). The mapping holds, per document path, the
  ids of its vectors, and the next id to hand out.

  The invariant the ledger is meant to keep is `Consistent`: every document's ids are distinct,
  increasing and below `next_id`, no two documents share an id, and `next_id` equals the number
  of vectors in the index. Adding, removing and rebuilding keep it (see the lemmas and the
  postconditions of the methods).
*/
module IndexManagement {
  import opened Common
  import opened Text
  import opened VectorIds
  import opened DocumentProcessor

  /** An embedding; its contents are never inspected. */
  type Vector = seq<real>

  /** One entry of `_mapping["documents"]`. */
  datatype DocInfo = DocInfo(vectorIds: seq<int>, numChunks: int, indexedAt: string, fileName: string)

  /** The mapping as `_load_mapping` returns it. */
  datatype Mapping = Mapping(documents: map<string, DocInfo>, nextId: int)

  /** What reading `document_mapping.json` gives: no file, a file that fails to load, or a mapping. */
  datatype MappingFile = NoFile | Unreadable | Stored(mapping: Mapping)

  datatype AddResult = Added(document: string, vectorsAdded: nat) | AddFailed(error: string)
  datatype RemoveResult = Removed(document: string, vectorsRemoved: nat) | RemoveFailed(error: string)
  datatype RebuildResult = Rebuilt(documentsIndexed: nat, totalVectors: int) | RebuildFailed(error: string)

  /**
    How the storage calls of `add_document` and `rebuild_full_index` went. `from_documents` (or,
    in a rebuild, the storage context before it) raised before anything was appended; or it
    appended its vectors to the FAISS index and `persist` then raised; or the mapping was updated
    and `_save_mapping` or `_save_faiss_index` then raised; or everything went through.
  */
  datatype Indexing =
    | EmbedFailed(error: string)
    | PersistFailed(appended: seq<Vector>, error: string)
    | SaveFailed(appended: seq<Vector>, error: string)
    | Indexed(appended: seq<Vector>)

  /** The vectors the index holds in addition after the storage calls. */
  function Appended(indexing: Indexing): seq<Vector> {
    if indexing.EmbedFailed? then [] else indexing.appended
  }

  /** The storage calls got as far as the mapping update. */
  predicate MappingUpdated(indexing: Indexing) {
    indexing.SaveFailed? || indexing.Indexed?
  }

  /** The result once the files are saved: the saving's exception, when it raised, replaces `done`. */
  function SavedOrFailed(saveError: Option<string>, done: RemoveResult): (r: RemoveResult)
    ensures saveError.None? ==> r == done
    ensures saveError.Some? ==> r == RemoveFailed(saveError.value)
  {
    if saveError.Some? then RemoveFailed(saveError.value) else done
  }

  /** One entry of the `documents` part of `get_document_info`. */
  datatype DocSummary = DocSummary(fileName: string, numChunks: int, indexedAt: string)
  datatype DocumentReport = DocumentReport(totalDocuments: nat, totalVectors: int, documents: map<string, DocSummary>)

  const NotFoundError := "Document not found in index"
  /** The text of the ValueError that `min([])` raises. */
  const EmptyMinError := "min() arg is an empty sequence"
  /** The IndexError raised when a removed id is below `-ntotal`. */
  const MaskIndexError := "index is out of bounds for the keep mask"

  /** The mapping of a fresh ledger. */
  const EmptyMapping := Mapping(map[], 0)

  /** `_load_mapping`: the stored mapping, or the empty one when the file is missing or unreadable. */
  function LoadMapping(file: MappingFile): (m: Mapping)
    ensures file.Stored? ==> m == file.mapping
    ensures !file.Stored? ==> m.documents == map[] && m.nextId == 0
  {
    match file
    case Stored(mapping) => mapping
    case _ => EmptyMapping
  }

  /** `list(range(start, start + n))`. */
  function IdRange(start: int, n: nat): (ids: seq<int>)
    ensures |ids| == n
    ensures forall i :: 0 <= i < n ==> ids[i] == start + i
  {
    seq(n, i => start + i)
  }

  ghost predicate WellFormed(info: DocInfo, bound: int) {
    && info.numChunks == |info.vectorIds|
    && StrictlyIncreasing(info.vectorIds)
    && IdsIn(info.vectorIds, bound)
  }

  ghost predicate Disjoint(a: seq<int>, b: seq<int>) {
    forall i, j :: 0 <= i < |a| && 0 <= j < |b| ==> a[i] != b[j]
  }

  /** The ledger agrees with an index of `ntotal` vectors. */
  ghost predicate Consistent(docs: map<string, DocInfo>, nextId: int, ntotal: int) {
    && 0 <= nextId == ntotal
    && (forall p :: p in docs ==> WellFormed(docs[p], nextId))
    && (forall p, q :: p in docs && q in docs && p != q ==> Disjoint(docs[p].vectorIds, docs[q].vectorIds))
  }

  /** The documents after `add_document(path, ...)` with `n` documents, ids starting at `start`. */
  function WithDocument(docs: map<string, DocInfo>, path: string, start: int, n: nat, now: string): (r: map<string, DocInfo>)
    ensures path in r && r[path].vectorIds == IdRange(start, n) && r[path].numChunks == n
    ensures r[path].fileName == BaseName(path) && r[path].indexedAt == now
    ensures r.Keys == docs.Keys + {path}
    ensures forall p :: p in docs && p != path ==> r[p] == docs[p]
  {
    docs[path := DocInfo(IdRange(start, n), n, now, BaseName(path))]
  }

  /**
    Adding `n` documents at `next_id`, when the index grew by exactly `n` vectors, keeps the
    ledger consistent; an entry that is overwritten leaves its old ids unused.
  */
  lemma AddKeepsConsistent(docs: map<string, DocInfo>, nextId: int, path: string, n: nat, now: string)
    requires Consistent(docs, nextId, nextId)
    ensures Consistent(WithDocument(docs, path, nextId, n, now), nextId + n, nextId + n)
  {
    var after := WithDocument(docs, path, nextId, n, now);
    forall p | p in after
      ensures WellFormed(after[p], nextId + n)
    {
      if p != path {
        assert WellFormed(docs[p], nextId);
      }
    }
    forall p, q | p in after && q in after && p != q
      ensures Disjoint(after[p].vectorIds, after[q].vectorIds)
    {
      if p != path && q != path {
        assert Disjoint(docs[p].vectorIds, docs[q].vectorIds);
      } else if p == path {
        assert IdsIn(docs[q].vectorIds, nextId);
      } else {
        assert IdsIn(docs[p].vectorIds, nextId);
      }
    }
  }

  /**
    When `persist` raises after `from_documents` appended `k > 0` vectors, the mapping is left as
    it was: the ledger is no longer consistent, the new vectors belong to no document, and the
    next `add_document` hands out `next_id`, which names the first of them.
  */
  lemma OrphanedAfterPersistFailure(docs: map<string, DocInfo>, nextId: int, vectors: seq<Vector>, appended: seq<Vector>)
    requires Consistent(docs, nextId, |vectors|) && appended != []
    ensures !Consistent(docs, nextId, |vectors + appended|)
    ensures 0 <= nextId < |vectors + appended| && (vectors + appended)[nextId] == appended[0]
    ensures forall p, i :: p in docs && 0 <= i < |docs[p].vectorIds| ==> docs[p].vectorIds[i] < nextId
  {
    forall p, i | p in docs && 0 <= i < |docs[p].vectorIds|
      ensures docs[p].vectorIds[i] < nextId
    {
      assert WellFormed(docs[p], nextId);
    }
  }

  /** `_update_mappings_after_removal` on the documents: every other document's ids are renumbered. */
  function RenumberedDocs(docs: map<string, DocInfo>, removedDoc: string, removed: seq<int>): (r: map<string, DocInfo>)
    requires |removed| > 0
    ensures r.Keys == docs.Keys
    ensures removedDoc in docs ==> r[removedDoc] == docs[removedDoc]
    ensures forall p :: p in docs && p != removedDoc ==>
      r[p] == docs[p].(vectorIds := RenumberIds(docs[p].vectorIds, removed))
  {
    map p | p in docs :: if p == removedDoc then docs[p] else docs[p].(vectorIds := RenumberIds(docs[p].vectorIds, removed))
  }

  /**
    Removing a document with ids from a consistent ledger: compacting the index by the keep-mask
    and renumbering the other documents' ids leaves a consistent ledger with `next_id` lowered
    by the number of removed ids, and every renumbered id points at the same vector as before.
  */
  lemma RemoveKeepsConsistent(docs: map<string, DocInfo>, vs: seq<Vector>, path: string)
    requires Consistent(docs, |vs|, |vs|) && path in docs && |docs[path].vectorIds| > 0
    ensures
      var removed := docs[path].vectorIds;
      Consistent(RenumberedDocs(docs, path, removed) - {path}, |vs| - |removed|, |Compact(vs, KeepMask(removed, |vs|))|)
    ensures
      var removed := docs[path].vectorIds;
      var after := RenumberedDocs(docs, path, removed) - {path};
      var compacted := Compact(vs, KeepMask(removed, |vs|));
      forall q, i :: q in after && 0 <= i < |after[q].vectorIds| ==>
        0 <= after[q].vectorIds[i] < |compacted| && compacted[after[q].vectorIds[i]] == vs[docs[q].vectorIds[i]]
  {
    var removed := docs[path].vectorIds;
    var n := |vs|;
    var after := RenumberedDocs(docs, path, removed) - {path};
    var compacted := Compact(vs, KeepMask(removed, n));
    assert WellFormed(docs[path], n);
    // Every surviving id lands on its vector in the compacted index.
    forall q, i | q in after && 0 <= i < |after[q].vectorIds|
      ensures 0 <= after[q].vectorIds[i] < |compacted| && |compacted| == n - |removed|
      ensures compacted[after[q].vectorIds[i]] == vs[docs[q].vectorIds[i]]
    {
      var v := docs[q].vectorIds[i];
      assert WellFormed(docs[q], n);
      assert Disjoint(docs[q].vectorIds, removed);
      SurvivorLands(vs, removed, v);
    }
    forall q | q in after
      ensures WellFormed(after[q], n - |removed|)
    {
      var ids := docs[q].vectorIds;
      assert WellFormed(docs[q], n);
      assert Disjoint(ids, removed);
      forall i, j | 0 <= i < j < |ids|
        ensures after[q].vectorIds[i] < after[q].vectorIds[j]
      {
        SurvivorsOrdered(removed, n, ids[i], ids[j]);
      }
      forall i | 0 <= i < |ids|
        ensures 0 <= after[q].vectorIds[i] < n - |removed|
      {
        SurvivorLands(vs, removed, ids[i]);
      }
    }
    forall p, q | p in after && q in after && p != q
      ensures Disjoint(after[p].vectorIds, after[q].vectorIds)
    {
      var a, b := docs[p].vectorIds, docs[q].vectorIds;
      assert WellFormed(docs[p], n) && WellFormed(docs[q], n);
      assert Disjoint(a, removed) && Disjoint(b, removed) && Disjoint(a, b);
      forall i, j | 0 <= i < |a| && 0 <= j < |b|
        ensures after[p].vectorIds[i] != after[q].vectorIds[j]
      {
        if a[i] < b[j] {
          SurvivorsOrdered(removed, n, a[i], b[j]);
        } else {
          SurvivorsOrdered(removed, n, b[j], a[i]);
        }
      }
    }
    CompactedLength(vs, removed);
  }

  /** The number of documents `rebuild_full_index` is given, over all paths. */
  function TotalChunks(byPath: seq<(string, seq<Document>)>): nat {
    if byPath == [] then 0
    else TotalChunks(byPath[..|byPath| - 1]) + |byPath[|byPath| - 1].1|
  }

  /** `all_documents` after the gathering loop: every path's documents, paths taken in order. */
  function Concat(byPath: seq<(string, seq<Document>)>): seq<Document> {
    if byPath == [] then []
    else Concat(byPath[..|byPath| - 1]) + byPath[|byPath| - 1].1
  }

  /** The gathered list holds exactly as many documents as the paths have together. */
  lemma {:induction false} ConcatLength(byPath: seq<(string, seq<Document>)>)
    ensures |Concat(byPath)| == TotalChunks(byPath)
  {
    if byPath != [] {
      ConcatLength(byPath[..|byPath| - 1]);
    }
  }

  /** Python dicts have distinct keys: the paths given to a rebuild are distinct. */
  ghost predicate DistinctPaths(byPath: seq<(string, seq<Document>)>) {
    forall i, j :: 0 <= i < j < |byPath| ==> byPath[i].0 != byPath[j].0
  }

  /** The documents after the mapping loop of `rebuild_full_index`, paths taken in order. */
  function Assigned(byPath: seq<(string, seq<Document>)>, now: string): map<string, DocInfo> {
    if byPath == [] then map[]
    else
      var init := byPath[..|byPath| - 1];
      var last := byPath[|byPath| - 1];
      WithDocument(Assigned(init, now), last.0, TotalChunks(init), |last.1|, now)
  }

  /** Every entry a rebuild records carries the rebuild's timestamp and its own path's base name. */
  lemma {:induction false} RebuildStampsEveryEntry(byPath: seq<(string, seq<Document>)>, now: string, p: string)
    requires p in Assigned(byPath, now)
    ensures Assigned(byPath, now)[p].indexedAt == now && Assigned(byPath, now)[p].fileName == BaseName(p)
  {
    var init := byPath[..|byPath| - 1];
    if p != byPath[|byPath| - 1].0 {
      RebuildStampsEveryEntry(init, now, p);
    }
  }

  /** A rebuild hands out ids consecutively: the result is consistent with one vector per document. */
  lemma {:induction false} RebuildConsistent(byPath: seq<(string, seq<Document>)>, now: string)
    ensures Consistent(Assigned(byPath, now), TotalChunks(byPath), TotalChunks(byPath))
  {
    if byPath != [] {
      var init := byPath[..|byPath| - 1];
      RebuildConsistent(init, now);
      AddKeepsConsistent(Assigned(init, now), TotalChunks(init), byPath[|byPath| - 1].0, |byPath[|byPath| - 1].1|, now);
    }
  }

  /**
    After a rebuild, the `k`-th path owns the block of ids that starts after the documents of
    all earlier paths, one id per document.
  */
  lemma {:induction false} RebuildIdsConsecutive(byPath: seq<(string, seq<Document>)>, now: string, k: nat)
    requires DistinctPaths(byPath) && k < |byPath|
    ensures byPath[k].0 in Assigned(byPath, now)
    ensures Assigned(byPath, now)[byPath[k].0].vectorIds == IdRange(TotalChunks(byPath[..k]), |byPath[k].1|)
    ensures Assigned(byPath, now)[byPath[k].0].numChunks == |byPath[k].1|
  {
    var init := byPath[..|byPath| - 1];
    if k == |byPath| - 1 {
      assert byPath[..k] == init;
    } else {
      assert DistinctPaths(init);
      RebuildIdsConsecutive(init, now, k);
      assert init[k] == byPath[k] && init[..k] == byPath[..k];
      assert byPath[k].0 != byPath[|byPath| - 1].0;
    }
  }

  /** The paths of the rebuild's input. */
  function Paths(byPath: seq<(string, seq<Document>)>): set<string> {
    if byPath == [] then {} else Paths(byPath[..|byPath| - 1]) + {byPath[|byPath| - 1].0}
  }

  /** A path is among the input's paths exactly when some entry of the input carries it. */
  lemma {:induction false} PathsIff(byPath: seq<(string, seq<Document>)>, p: string)
    ensures p in Paths(byPath) <==> exists i :: 0 <= i < |byPath| && byPath[i].0 == p
  {
    if byPath != [] {
      var init := byPath[..|byPath| - 1];
      PathsIff(init, p);
      if exists i :: 0 <= i < |byPath| && byPath[i].0 == p {
        var i :| 0 <= i < |byPath| && byPath[i].0 == p;
        if i < |init| {
          assert init[i] == byPath[i];
        }
      }
      if p in Paths(init) {
        var i :| 0 <= i < |init| && init[i].0 == p;
        assert byPath[i] == init[i];
      }
    }
  }

  /** The paths a rebuild records are exactly the paths it was given. */
  lemma {:induction false} RebuildRecordsEveryPath(byPath: seq<(string, seq<Document>)>, now: string)
    ensures Assigned(byPath, now).Keys == Paths(byPath)
  {
    if byPath != [] {
      RebuildRecordsEveryPath(byPath[..|byPath| - 1], now);
    }
  }

  /** The ledger: the mapping of `IndexManager` and the vectors of its FAISS index. */
  class IndexManager {
    var documents: map<string, DocInfo>
    var nextId: int
    /** The FAISS flat index: the vector with id `i` is `vectors[i]`. */
    var vectors: seq<Vector>

    ghost predicate Valid()
      reads this
    {
      Consistent(documents, nextId, |vectors|)
    }

    /** `__init__`: the mapping is loaded from disk and the index is the stored one (empty when there is none). */
    constructor (stored: MappingFile, storedIndex: seq<Vector>)
      ensures Mapping(documents, nextId) == LoadMapping(stored)
      ensures vectors == storedIndex
      ensures !stored.Stored? && storedIndex == [] ==> Valid()
    {
      var m := LoadMapping(stored);
      documents := m.documents;
      nextId := m.nextId;
      vectors := storedIndex;
    }

    /** `is_document_indexed`. */
    predicate IsDocumentIndexed(docPath: string)
      reads this
    {
      docPath in documents
    }

    /** `get_document_info`: counts and, per document, its file name, chunk count and timestamp. */
    function GetDocumentInfo(): (report: DocumentReport)
      reads this
      ensures report.totalDocuments == |documents| && report.totalVectors == nextId
      ensures report.documents.Keys == documents.Keys
      ensures forall p :: p in documents ==>
        report.documents[p] == DocSummary(documents[p].fileName, documents[p].numChunks, documents[p].indexedAt)
    {
      DocumentReport(
        |documents|,
        nextId,
        map p | p in documents :: DocSummary(documents[p].fileName, documents[p].numChunks, documents[p].indexedAt))
    }

    /** A path is indexed exactly when `get_document_info` lists it. */
    lemma IndexedIffReported(docPath: string)
      ensures IsDocumentIndexed(docPath) <==> docPath in GetDocumentInfo().documents
    {
    }

    /**
      `add_document`: `indexing` is how embedding `docs` into the index and storing it went.
      Whatever `from_documents` appended stays in the index. Once `persist` has gone through, the
      path gets the next `|docs|` ids, its entry is overwritten if it existed, and `next_id` moves
      past them; a failure to save the files afterwards still reports failure.
    */
    method AddDocument(docPath: string, docs: seq<Document>, indexing: Indexing, now: string) returns (r: AddResult)
      modifies this
      ensures vectors == old(vectors) + Appended(indexing)
      ensures !MappingUpdated(indexing) ==> r == AddFailed(indexing.error)
      ensures !MappingUpdated(indexing) ==> documents == old(documents) && nextId == old(nextId)
      ensures indexing.SaveFailed? ==> r == AddFailed(indexing.error)
      ensures indexing.Indexed? ==> r == Added(docPath, |docs|)
      ensures MappingUpdated(indexing) ==> documents == WithDocument(old(documents), docPath, old(nextId), |docs|, now)
      ensures MappingUpdated(indexing) ==> nextId == old(nextId) + |docs| && IsDocumentIndexed(docPath)
      ensures old(Valid()) && |Appended(indexing)| == (if MappingUpdated(indexing) then |docs| else 0) ==> Valid()
      ensures old(Valid()) && indexing.PersistFailed? && indexing.appended != [] ==> !Valid()
    {
      if indexing.EmbedFailed? {
        return AddFailed(indexing.error);
      }
      vectors := vectors + indexing.appended;
      if indexing.PersistFailed? {
        return AddFailed(indexing.error);
      }
      var startId := nextId;
      var numVectors := |docs|;
      var vectorIds := IdRange(startId, numVectors);
      documents := documents[docPath := DocInfo(vectorIds, numVectors, now, BaseName(docPath))];
      nextId := startId + numVectors;
      if old(Valid()) && |indexing.appended| == |docs| {
        AddKeepsConsistent(old(documents), startId, docPath, numVectors, now);
      }
      if indexing.SaveFailed? {
        return AddFailed(indexing.error);
      }
      r := Added(docPath, numVectors);
    }

    /**
      The keep-mask loop of `remove_document`: start with every position kept and clear the
      position of every removed id below `ntotal` (a negative id counts from the end, and one
      below `-ntotal` raises).
    */
    static method BuildKeepMask(ids: seq<int>, n: nat) returns (mask: array<bool>, ok: bool)
      ensures fresh(mask) && mask.Length == n
      ensures ok == !MaskFails(ids, n)
      ensures ok ==> mask[..] == KeepMask(ids, n)
    {
      mask := new bool[n](_ => true);
      var j := 0;
      while j < |ids|
        invariant 0 <= j <= |ids|
        invariant forall k :: 0 <= k < j ==> ids[k] + n >= 0
        invariant forall p :: 0 <= p < n ==> mask[p] == !Cleared(ids[..j], n, p)
      {
        var vid := ids[j];
        if vid < n {
          if vid + n < 0 {
            return mask, false;
          }
          mask[MaskIndex(vid, n)] := false;
        }
        forall p | 0 <= p < n {
          ClearedStep(ids, n, j, p);
        }
        j := j + 1;
      }
      assert ids[..j] == ids;
      ok := true;
    }

    /**
      The inner loop of `_update_mappings_after_removal` for one document: each id above the
      smallest removed one moves down by the number of removed ids below it.
    */
    static method RenumberList(ids: seq<int>, removed: seq<int>, minRemoved: int) returns (updated: seq<int>)
      requires |removed| > 0 && minRemoved == Min(removed)
      ensures updated == RenumberIds(ids, removed)
    {
      updated := [];
      for k := 0 to |ids|
        invariant |updated| == k
        invariant forall i :: 0 <= i < k ==> updated[i] == Renumbered(ids[i], removed)
      {
        var vid := ids[k];
        if vid > minRemoved {
          var offset := CountBelow(removed, vid);
          updated := updated + [vid - offset];
        } else {
          updated := updated + [vid];
        }
      }
    }

    /**
      `_update_mappings_after_removal`: renumbers the ids of every document but the removed one
      and lowers `next_id` by the number of removed ids. `min` of an empty id list raises, and
      then nothing changes.
    */
    method UpdateMappingsAfterRemoval(removedDoc: string, removedIds: seq<int>) returns (ok: bool)
      modifies this
      ensures ok <==> |removedIds| > 0
      ensures vectors == old(vectors)
      ensures !ok ==> documents == old(documents) && nextId == old(nextId)
      ensures ok ==> documents == RenumberedDocs(old(documents), removedDoc, removedIds)
      ensures ok ==> nextId == old(nextId) - |removedIds|
    {
      if |removedIds| == 0 {
        return false;
      }
      var minRemoved := Min(removedIds);
      var remaining := documents.Keys;
      while remaining != {}
        invariant remaining <= documents.Keys == old(documents).Keys
        invariant vectors == old(vectors) && nextId == old(nextId)
        invariant forall p :: p in documents ==>
          documents[p] == (if p in remaining || p == removedDoc then old(documents)[p]
                           else old(documents)[p].(vectorIds := RenumberIds(old(documents)[p].vectorIds, removedIds)))
        decreases remaining
      {
        var docPath :| docPath in remaining;
        if docPath != removedDoc {
          var updatedIds := RenumberList(documents[docPath].vectorIds, removedIds, minRemoved);
          documents := documents[docPath := documents[docPath].(vectorIds := updatedIds)];
        }
        remaining := remaining - {docPath};
      }
      nextId := nextId - |removedIds|;
      ok := true;
    }

    /**
      `remove_document`: an unknown path fails and changes nothing. Otherwise, when the index
      holds vectors, it is compacted by the keep-mask and the other documents' ids renumbered;
      the entry is then deleted. An empty id list on a non-empty index makes `min` raise after
      the index was rebuilt from all its vectors, so the call fails with nothing changed.
      `saveError` is the exception `_save_faiss_index` or `_save_mapping` raised, if any: the
      removal has then already happened in memory, and the call still reports failure.
    */
    method RemoveDocument(docPath: string, saveError: Option<string>) returns (r: RemoveResult)
      modifies this
      ensures docPath !in old(documents) ==>
        r == RemoveFailed(NotFoundError) && documents == old(documents) && nextId == old(nextId) && vectors == old(vectors)
      ensures docPath in old(documents) && |old(vectors)| == 0 ==>
        && r == SavedOrFailed(saveError, Removed(docPath, |old(documents)[docPath].vectorIds|))
        && documents == old(documents) - {docPath} && nextId == old(nextId) && vectors == old(vectors)
      ensures docPath in old(documents) && |old(vectors)| > 0 ==>
        var ids := old(documents)[docPath].vectorIds;
        var n := |old(vectors)|;
        if MaskFails(ids, n) || ids == [] then
          && r == RemoveFailed(if MaskFails(ids, n) then MaskIndexError else EmptyMinError)
          && documents == old(documents) && nextId == old(nextId) && vectors == old(vectors)
        else
          && r == SavedOrFailed(saveError, Removed(docPath, |ids|))
          && vectors == Compact(old(vectors), KeepMask(ids, n))
          && documents == RenumberedDocs(old(documents), docPath, ids) - {docPath}
          && nextId == old(nextId) - |ids|
      ensures r.Removed? ==> !IsDocumentIndexed(docPath)
      ensures old(Valid()) ==> Valid()
    {
      if docPath !in documents {
        return RemoveFailed(NotFoundError);
      }
      var vectorIds := documents[docPath].vectorIds;
      var ntotal := |vectors|;
      if ntotal > 0 {
        var keepMask, maskOk := BuildKeepMask(vectorIds, ntotal);
        if !maskOk {
          return RemoveFailed(MaskIndexError);
        }
        vectors := Compact(vectors, keepMask[..]);
        var ok := UpdateMappingsAfterRemoval(docPath, vectorIds);
        if !ok {
          // The index was rebuilt from every vector: nothing was cleared.
          CompactAllKept(old(vectors), KeepMask(vectorIds, ntotal));
          return RemoveFailed(EmptyMinError);
        }
        if old(Valid()) {
          RemoveKeepsConsistent(old(documents), old(vectors), docPath);
        }
      } else {
        assert old(Valid()) ==> forall p :: p in documents ==> IdsIn(documents[p].vectorIds, 0);
      }
      documents := documents - {docPath};
      r := SavedOrFailed(saveError, Removed(docPath, |vectorIds|));
    }

    /** The loop of `rebuild_full_index` that gathers every path's documents into one list. */
    static method CombineDocuments(byPath: seq<(string, seq<Document>)>) returns (allDocuments: seq<Document>)
      ensures allDocuments == Concat(byPath)
      ensures |allDocuments| == TotalChunks(byPath)
    {
      allDocuments := [];
      for i := 0 to |byPath|
        invariant allDocuments == Concat(byPath[..i])
      {
        assert byPath[..i + 1][..i] == byPath[..i];
        allDocuments := allDocuments + byPath[i].1;
      }
      assert byPath[..|byPath|] == byPath;
      ConcatLength(byPath);
    }

    /**
      The mapping loop of `rebuild_full_index`: each path in turn gets the next block of ids,
      one per document, and `vector_id` ends at the total number of documents.
    */
    static method AssignIds(byPath: seq<(string, seq<Document>)>, now: string)
      returns (docs: map<string, DocInfo>, vectorId: int)
      requires DistinctPaths(byPath)
      ensures docs == Assigned(byPath, now) && vectorId == TotalChunks(byPath)
    {
      docs := map[];
      vectorId := 0;
      for i := 0 to |byPath|
        invariant vectorId == TotalChunks(byPath[..i])
        invariant docs == Assigned(byPath[..i], now)
      {
        ghost var prefix := byPath[..i + 1];
        assert prefix[..i] == byPath[..i] && prefix[i] == byPath[i];
        assert TotalChunks(prefix) == TotalChunks(byPath[..i]) + |byPath[i].1|;
        assert Assigned(prefix, now) == WithDocument(docs, byPath[i].0, vectorId, |byPath[i].1|, now);
        var docPath := byPath[i].0;
        var numVectors := |byPath[i].1|;
        var vectorIds := IdRange(vectorId, numVectors);
        docs := docs[docPath := DocInfo(vectorIds, numVectors, now, BaseName(docPath))];
        vectorId := vectorId + numVectors;
      }
      assert byPath[..|byPath|] == byPath;
    }

    /**
      `rebuild_full_index`: resets the index and the mapping, then, when there is any document
      at all, embeds them all and records for every path in order a consecutive block of ids.
      `indexing` is how the storage calls went; `EmbedFailed` also stands for the storage
      context raising, the one call made when there are no documents. Whatever failed, the reset
      has happened and the vectors already appended stay. With no documents the mapping stays
      empty although every path is counted.
    */
    method RebuildFullIndex(byPath: seq<(string, seq<Document>)>, indexing: Indexing, now: string)
      returns (r: RebuildResult)
      requires DistinctPaths(byPath)
      modifies this
      ensures indexing.EmbedFailed? ==> r == RebuildFailed(indexing.error)
      ensures indexing.EmbedFailed? || TotalChunks(byPath) == 0 ==> documents == map[] && nextId == 0 && vectors == []
      ensures !indexing.EmbedFailed? && TotalChunks(byPath) == 0 ==> r == Rebuilt(|byPath|, 0)
      ensures indexing.PersistFailed? && TotalChunks(byPath) > 0 ==>
        && r == RebuildFailed(indexing.error)
        && documents == map[] && nextId == 0 && vectors == indexing.appended
      ensures MappingUpdated(indexing) && TotalChunks(byPath) > 0 ==>
        && documents == Assigned(byPath, now) && nextId == TotalChunks(byPath) && vectors == indexing.appended
      ensures indexing.SaveFailed? && TotalChunks(byPath) > 0 ==> r == RebuildFailed(indexing.error)
      ensures indexing.Indexed? && TotalChunks(byPath) > 0 ==> r == Rebuilt(|byPath|, TotalChunks(byPath))
      ensures TotalChunks(byPath) == 0 || |Appended(indexing)| == (if MappingUpdated(indexing) then TotalChunks(byPath) else 0) ==> Valid()
      ensures indexing.PersistFailed? && TotalChunks(byPath) > 0 && indexing.appended != [] ==> !Valid()
    {
      vectors := [];
      documents := map[];
      nextId := 0;
      if indexing.EmbedFailed? {
        return RebuildFailed(indexing.error);
      }
      var allDocuments := CombineDocuments(byPath);
      if |allDocuments| > 0 {
        vectors := indexing.appended;
        if indexing.PersistFailed? {
          return RebuildFailed(indexing.error);
        }
        documents, nextId := AssignIds(byPath, now);
        if |indexing.appended| == TotalChunks(byPath) {
          RebuildConsistent(byPath, now);
        }
        if indexing.SaveFailed? {
          return RebuildFailed(indexing.error);
        }
      }
      r := Rebuilt(|byPath|, nextId);
    }
  }
}
