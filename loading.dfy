/** Loading the selected objects and dropping the ones that failed to load. */
module Loading {
  import opened Wrappers
  import opened Seqs
  import opened Json

  type Byte = bv8

  /**
   * `load_json_file`: fetch the object body and parse it as UTF-8 JSON. Any failure of
   * either step is caught and becomes `None`. A body that is the JSON literal `null` parses
   * to Python's `None` as well, so the caller cannot tell it from a failure.
   */
  function LoadJsonFile(
    fetch: (string, string) -> Option<seq<Byte>>,
    parse: seq<Byte> -> Option<Json>,
    bucket: string,
    key: string): (r: Option<Json>)
    ensures r.None? <==>
      || fetch(bucket, key).None?
      || parse(fetch(bucket, key).value).None?
      || parse(fetch(bucket, key).value) == Some(Null)
    ensures r.Some? ==> parse(fetch(bucket, key).value) == r && r.value != Null
  {
    match fetch(bucket, key)
    case None => None
    case Some(body) =>
      match parse(body)
      case None => None
      case Some(doc) => if doc == Null then None else Some(doc)
  }

  /** `executor.map(load, keys)`: result slot `i` holds the outcome for key `i`, whatever the completion order. */
  function LoadAll(
    keys: seq<string>,
    fetch: (string, string) -> Option<seq<Byte>>,
    parse: seq<Byte> -> Option<Json>,
    bucket: string): (r: seq<Option<Json>>)
    ensures |r| == |keys|
    ensures forall i | 0 <= i < |keys| :: r[i] == LoadJsonFile(fetch, parse, bucket, keys[i])
  {
    seq(|keys|, i requires 0 <= i < |keys| => LoadJsonFile(fetch, parse, bucket, keys[i]))
  }

  /** `[f for f in loaded if f is not None]`. */
  function DropFailures(loaded: seq<Option<Json>>): (r: seq<Json>)
    ensures |r| <= |loaded|
    ensures |r| == 0 <==> forall i | 0 <= i < |loaded| :: loaded[i].None?
    ensures forall j | 0 <= j < |r| :: Some(r[j]) in loaded
  {
    if |loaded| == 0 then []
    else
      var init := DropFailures(loaded[..|loaded| - 1]);
      assert forall i | 0 <= i < |loaded| - 1 :: loaded[..|loaded| - 1][i] == loaded[i];
      match loaded[|loaded| - 1]
      case None => init
      case Some(doc) => init + [doc]
  }

  /** The outcomes of the successful loads, each wrapped back in `Some`. */
  function Wrapped(docs: seq<Json>): (r: seq<Option<Json>>)
    ensures |r| == |docs| && forall j | 0 <= j < |docs| :: r[j] == Some(docs[j])
  {
    seq(|docs|, j requires 0 <= j < |docs| => Some(docs[j]))
  }

  /** Filtering distributes over concatenation, so neighbouring outcomes stay in order. */
  lemma {:induction false} DropFailuresAppend(a: seq<Option<Json>>, b: seq<Option<Json>>)
    ensures DropFailures(a + b) == DropFailures(a) + DropFailures(b)
    decreases |b|
  {
    if |b| == 0 {
      assert a + b == a;
    } else {
      assert (a + b)[..|a + b| - 1] == a + b[..|b| - 1];
      DropFailuresAppend(a, b[..|b| - 1]);
    }
  }

  /** The successes, in their original relative order, are what remains. */
  lemma {:induction false} DropFailuresSubsequence(loaded: seq<Option<Json>>)
    ensures IsSubsequence(Wrapped(DropFailures(loaded)), loaded)
    decreases |loaded|
  {
    if |loaded| == 0 {
      SubsequenceEmpty(loaded);
    } else {
      var init := loaded[..|loaded| - 1];
      DropFailuresSubsequence(init);
      var last := loaded[|loaded| - 1];
      assert loaded == init + [last];
      SubsequenceSnoc(Wrapped(DropFailures(init)), init, last, last.Some?);
      if last.Some? {
        assert Wrapped(DropFailures(loaded)) == Wrapped(DropFailures(init)) + [last];
      }
    }
  }

  /** When nothing failed, every document is kept, in order. */
  lemma {:induction false} DropFailuresNoneFailed(loaded: seq<Option<Json>>)
    requires forall i | 0 <= i < |loaded| :: loaded[i].Some?
    ensures Wrapped(DropFailures(loaded)) == loaded
    decreases |loaded|
  {
    if |loaded| > 0 {
      var init := loaded[..|loaded| - 1];
      DropFailuresNoneFailed(init);
      assert Wrapped(DropFailures(loaded)) == Wrapped(DropFailures(init)) + [loaded[|loaded| - 1]];
      assert loaded == init + [loaded[|loaded| - 1]];
    }
  }

  /** Every successful outcome survives the filter. */
  lemma {:induction false} DropFailuresKeepsSuccesses(loaded: seq<Option<Json>>, i: nat)
    requires i < |loaded| && loaded[i].Some?
    ensures loaded[i].value in DropFailures(loaded)
    decreases |loaded|
  {
    if i < |loaded| - 1 {
      DropFailuresKeepsSuccesses(loaded[..|loaded| - 1], i);
    }
  }

  /** No document that survives the filter is JSON `null`: such a file counts as not loaded. */
  lemma LoadedDocumentsNotNull(
    keys: seq<string>,
    fetch: (string, string) -> Option<seq<Byte>>,
    parse: seq<Byte> -> Option<Json>,
    bucket: string)
    ensures forall j | 0 <= j < |DropFailures(LoadAll(keys, fetch, parse, bucket))| ::
      DropFailures(LoadAll(keys, fetch, parse, bucket))[j] != Null
  {
    var loaded := LoadAll(keys, fetch, parse, bucket);
    var docs := DropFailures(loaded);
    forall j | 0 <= j < |docs|
      ensures docs[j] != Null
    {
      assert Some(docs[j]) in loaded;
      var i :| 0 <= i < |loaded| && loaded[i] == Some(docs[j]);
      assert loaded[i] == LoadJsonFile(fetch, parse, bucket, keys[i]);
    }
  }
}
