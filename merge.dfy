/** `merge_json_data`: one JSON document out of the loaded ones. */
module Merge {
  import opened Wrappers
  import opened Seqs
  import opened Json
  import opened Decimal

  /** `all(isinstance(f, list) for f in docs)`; true of no documents at all. */
  predicate AllArrays(docs: seq<Json>)
  {
    forall i | 0 <= i < |docs| :: docs[i].Arr?
  }

  function ItemLists(docs: seq<Json>): (r: seq<seq<Json>>)
    requires AllArrays(docs)
    ensures |r| == |docs| && forall i | 0 <= i < |docs| :: r[i] == docs[i].items
  {
    seq(|docs|, i requires 0 <= i < |docs| => docs[i].items)
  }

  /** `[item for f in docs for item in f]`. */
  function Concat(docs: seq<Json>): seq<Json>
    requires AllArrays(docs)
  {
    Flatten(ItemLists(docs))
  }

  /** `f"file_{i}"`. */
  function FileKey(i: nat): (r: string)
    ensures |r| >= 6 && r[..5] == "file_"
    ensures forall j | 5 <= j < |r| :: '0' <= r[j] <= '9'
  {
    "file_" + NatToString(i)
  }

  /** The entries of `merged["files"]`: key `file_i` holds document `i`, in document order. */
  ghost predicate NumberedFiles(entries: seq<(string, Json)>, docs: seq<Json>)
  {
    |entries| == |docs| && forall i | 0 <= i < |docs| :: entries[i] == (FileKey(i), docs[i])
  }

  /** The three shapes `merge_json_data` returns. */
  predicate MergedShape(merged: Json)
  {
    || merged == Obj([])
    || (&& merged.Obj?
        && |merged.members| == 1
        && (|| (merged.members[0].0 == "merged_data" && merged.members[0].1.Arr?)
            || (merged.members[0].0 == "files" && merged.members[0].1.Obj?)))
  }

  lemma FileKeyInjective(i: nat, j: nat)
    requires FileKey(i) == FileKey(j)
    ensures i == j
  {
    assert FileKey(i)[5..] == NatToString(i);
    assert FileKey(j)[5..] == NatToString(j);
    NatToStringInjective(i, j);
  }

  /** The numbered keys are all different, so `file_i` is not yet taken when document `i` is added. */
  lemma FreshFileKey(entries: seq<(string, Json)>, docs: seq<Json>)
    requires NumberedFiles(entries, docs)
    ensures !HasKey(entries, FileKey(|docs|))
  {
    if HasKey(entries, FileKey(|docs|)) {
      var j :| 0 <= j < |entries| && entries[j].0 == FileKey(|docs|);
      FileKeyInjective(j, |docs|);
    }
  }

  /** Numbering one more document adds its `file_i` entry last. */
  lemma NumberedFilesSnoc(entries: seq<(string, Json)>, docs: seq<Json>, x: Json)
    requires NumberedFiles(entries, docs)
    ensures NumberedFiles(entries + [(FileKey(|docs|), x)], docs + [x])
  {
  }

  /** There is only one numbering of a list of documents. */
  lemma NumberedFilesUnique(entries: seq<(string, Json)>, docs: seq<Json>)
    requires NumberedFiles(entries, docs)
    ensures entries == NumberedEntries(docs)
  {
  }

  /** The entries `file_0` to `file_{n-1}`, document by document. */
  function NumberedEntries(docs: seq<Json>): (r: seq<(string, Json)>)
    ensures NumberedFiles(r, docs)
  {
    seq(|docs|, i requires 0 <= i < |docs| => (FileKey(i), docs[i]))
  }

  /** The document `merge_json_data` returns, stated case by case. */
  function Merged(docs: seq<Json>): (r: Json)
    ensures MergedShape(r)
  {
    if docs == [] then Obj([])
    else if AllArrays(docs) then Obj([("merged_data", Arr(Concat(docs)))])
    else Obj([("files", Obj(NumberedEntries(docs)))])
  }

  /** The merge loop over `enumerate(docs)`, filling `merged["files"]` in place. */
  method MergeJsonData(docs: seq<Json>) returns (merged: Json)
    ensures docs == [] ==> merged == Obj([])
    ensures docs != [] && AllArrays(docs) ==> merged == Obj([("merged_data", Arr(Concat(docs)))])
    ensures !AllArrays(docs) ==>
      && merged.Obj? && |merged.members| == 1
      && merged.members[0].0 == "files" && merged.members[0].1.Obj?
      && NumberedFiles(merged.members[0].1.members, docs)
    ensures merged == Merged(docs)
  {
    if docs == [] {
      return Obj([]);
    }
    if forall i | 0 <= i < |docs| :: docs[i].Arr? {
      return Obj([("merged_data", Arr(Concat(docs)))]);
    }
    var files: seq<(string, Json)> := [];
    for i := 0 to |docs|
      invariant NumberedFiles(files, docs[..i])
    {
      FreshFileKey(files, docs[..i]);
      NumberedFilesSnoc(files, docs[..i], docs[i]);
      assert docs[..i + 1] == docs[..i] + [docs[i]];
      files := Put(files, FileKey(i), docs[i]);
    }
    assert docs[..|docs|] == docs;
    NumberedFilesUnique(files, docs);
    merged := Obj([("files", Obj(files))]);
  }

  lemma ItemListsAppend(a: seq<Json>, b: seq<Json>)
    requires AllArrays(a) && AllArrays(b)
    ensures AllArrays(a + b) && ItemLists(a + b) == ItemLists(a) + ItemLists(b)
  {
  }

  /** The concatenation runs document after document. */
  lemma ConcatAppend(a: seq<Json>, b: seq<Json>)
    requires AllArrays(a) && AllArrays(b)
    ensures AllArrays(a + b) && Concat(a + b) == Concat(a) + Concat(b)
  {
    ItemListsAppend(a, b);
    FlattenAppend(ItemLists(a), ItemLists(b));
  }

  /** One array concatenates to its own items. */
  lemma ConcatSingle(items: seq<Json>)
    ensures AllArrays([Arr(items)]) && Concat([Arr(items)]) == items
  {
    assert ItemLists([Arr(items)]) == [items];
    FlattenSingle(items);
  }

  /** `merged_data` holds as many items as the documents together. */
  lemma ConcatLength(docs: seq<Json>)
    requires AllArrays(docs)
    ensures |Concat(docs)| == TotalLength(ItemLists(docs))
  {
    FlattenLength(ItemLists(docs));
  }

  /** Item `k` of document `i` lands after all items of the documents before it. */
  lemma ConcatAt(docs: seq<Json>, i: nat, k: nat)
    requires AllArrays(docs) && i < |docs| && k < |docs[i].items|
    ensures |Concat(docs[..i])| + k < |Concat(docs)|
    ensures Concat(docs)[|Concat(docs[..i])| + k] == docs[i].items[k]
  {
    var lists := ItemLists(docs);
    assert ItemLists(docs[..i]) == lists[..i];
    FlattenAt(lists, i, k);
  }

  /** In a list whose earlier keys all differ from key `j`'s, looking that key up finds entry `j`. */
  lemma {:induction false} GetFirstOccurrence(ms: seq<(string, Json)>, j: nat)
    requires j < |ms|
    requires forall k | 0 <= k < j :: ms[k].0 != ms[j].0
    ensures Get(ms, ms[j].0) == Some(ms[j].1)
    decreases j
  {
    if j > 0 {
      assert forall k | 0 <= k < j - 1 :: ms[1..][k] == ms[k + 1];
      GetFirstOccurrence(ms[1..], j - 1);
    }
  }

  /** `merged["files"]["file_i"]` is the `i`-th document. */
  lemma NumberedFilesLookup(entries: seq<(string, Json)>, docs: seq<Json>, i: nat)
    requires NumberedFiles(entries, docs) && i < |docs|
    ensures Get(entries, FileKey(i)) == Some(docs[i])
  {
    forall k | 0 <= k < i
      ensures entries[k].0 != entries[i].0
    {
      if entries[k].0 == entries[i].0 {
        FileKeyInjective(k, i);
      }
    }
    GetFirstOccurrence(entries, i);
  }

  /** The keys of `merged["files"]` are exactly `file_0` to `file_{n-1}`. */
  lemma NumberedFilesKeys(entries: seq<(string, Json)>, docs: seq<Json>, key: string)
    requires NumberedFiles(entries, docs)
    ensures HasKey(entries, key) <==> exists i | 0 <= i < |docs| :: key == FileKey(i)
  {
    if HasKey(entries, key) {
      var j :| 0 <= j < |entries| && entries[j].0 == key;
      assert key == FileKey(j);
    }
    if exists i | 0 <= i < |docs| :: key == FileKey(i) {
      var i :| 0 <= i < |docs| && key == FileKey(i);
      assert entries[i].0 == key;
    }
  }

  /** `merged["files"].values()` gives back the documents in their order. */
  lemma NumberedFilesValues(entries: seq<(string, Json)>, docs: seq<Json>)
    requires NumberedFiles(entries, docs)
    ensures Values(entries) == docs
  {
  }
}
