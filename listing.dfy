/**
 * Selection of JSON object keys from a paginated bucket listing: the capped scan that
 * `/analyze` runs before loading, and the uncapped one behind `/list_files`.
 */
module Listing {
  import opened Wrappers
  import opened Seqs

  /** One object of a `list_objects_v2` page: its `Key`, `Size` and `LastModified` (as ISO text). */
  datatype ObjectSummary = ObjectSummary(key: string, size: int, lastModified: string)

  /** One listing page; `contents` is `None` when the page has no `Contents` entry. */
  datatype Page = Page(contents: Option<seq<ObjectSummary>>)

  /** The reply of `/list_files`. */
  datatype ListFilesResponse = ListFilesResponse(files: seq<ObjectSummary>, count: nat)

  function LowerChar(c: char): char
  {
    if 'A' <= c <= 'Z' then (c as int + 32) as char else c
  }

  /** `str.lower()`, for the letters A to Z. */
  function Lower(s: string): (r: string)
    ensures |r| == |s| && forall j | 0 <= j < |s| :: r[j] == LowerChar(s[j])
    ensures forall j | 0 <= j < |r| :: !('A' <= r[j] <= 'Z')
  {
    seq(|s|, j requires 0 <= j < |s| => LowerChar(s[j]))
  }

  predicate EndsWith(s: string, suffix: string)
  {
    |suffix| <= |s| && s[|s| - |suffix|..] == suffix
  }

  /** `key.lower().endswith('.json')`. */
  predicate IsJsonKey(key: string)
  {
    EndsWith(Lower(key), ".json")
  }

  /**
   * A key is a JSON key exactly when its last five characters, lower-cased, are ".json":
   * lower-casing the whole key first changes nothing else.
   */
  lemma IsJsonKeySuffix(key: string)
    ensures IsJsonKey(key) <==> |key| >= 5 && Lower(key[|key| - 5..]) == ".json"
  {
    if |key| >= 5 {
      assert Lower(key)[|key| - 5..] == Lower(key[|key| - 5..]);
    }
  }

  /** The test ignores case and looks only at the end of the key. */
  lemma IsJsonKeyExamples()
    ensures IsJsonKey("data.JSON") && IsJsonKey("logs/2024/a.Json")
    ensures !IsJsonKey("data.json.gz") && !IsJsonKey("json") && !IsJsonKey("data.jsonl")
  {
    IsJsonKeySuffix("data.JSON");
    assert "data.JSON"[4..] == ".JSON";
    assert Lower(".JSON") == ".json";
    IsJsonKeySuffix("logs/2024/a.Json");
    assert "logs/2024/a.Json"[11..] == ".Json";
    assert Lower(".Json") == ".json";
    IsJsonKeySuffix("data.json.gz");
    assert "data.json.gz"[7..] == "on.gz";
    assert Lower("on.gz")[0] == 'o';
    IsJsonKeySuffix("data.jsonl");
    assert "data.jsonl"[5..] == "jsonl";
    assert Lower("jsonl")[0] == 'j';
  }

  function PageObjects(page: Page): seq<ObjectSummary>
  {
    if page.contents.Some? then page.contents.value else []
  }

  /** Every object of the listing, page after page. */
  function AllObjects(pages: seq<Page>): seq<ObjectSummary>
  {
    if |pages| == 0 then [] else AllObjects(pages[..|pages| - 1]) + PageObjects(pages[|pages| - 1])
  }

  /** The objects whose key is a JSON key, in listing order. */
  function JsonEntries(objs: seq<ObjectSummary>): (r: seq<ObjectSummary>)
    ensures |r| <= |objs|
    ensures forall j | 0 <= j < |r| :: IsJsonKey(r[j].key)
  {
    if |objs| == 0 then []
    else
      var init := JsonEntries(objs[..|objs| - 1]);
      if IsJsonKey(objs[|objs| - 1].key) then init + [objs[|objs| - 1]] else init
  }

  function Keys(objs: seq<ObjectSummary>): (r: seq<string>)
    ensures |r| == |objs| && forall j | 0 <= j < |objs| :: r[j] == objs[j].key
  {
    seq(|objs|, j requires 0 <= j < |objs| => objs[j].key)
  }

  /** Every key of the listing. */
  function AllKeys(pages: seq<Page>): seq<string>
  {
    Keys(AllObjects(pages))
  }

  /** Every JSON key of the listing, in listing order. */
  function JsonKeys(pages: seq<Page>): seq<string>
  {
    Keys(JsonEntries(AllObjects(pages)))
  }

  /** The JSON keys of one page. */
  function PageKeys(page: Page): seq<string>
  {
    Keys(JsonEntries(PageObjects(page)))
  }

  /**
   * The JSON keys of the first page that has a `Contents` entry; pages without one are
   * passed over without the cap being compared.
   */
  function ListedPageKeys(pages: seq<Page>): (r: seq<string>)
    ensures forall j | 0 <= j < |r| :: IsJsonKey(r[j])
  {
    if |pages| == 0 then []
    else if pages[0].contents.Some? then PageKeys(pages[0])
    else ListedPageKeys(pages[1..])
  }

  /** Some page of the listing has a `Contents` entry. */
  predicate HasContents(pages: seq<Page>)
  {
    exists i | 0 <= i < |pages| :: pages[i].contents.Some?
  }

  /**
   * The scan leaves the page loop by a `break` rather than by running out of pages. With a
   * positive cap that happens when the cap is reached. With a cap of zero or less it happens
   * at the first page that has `Contents`.
   */
  predicate ScanStops(pages: seq<Page>, maxFiles: int)
  {
    if maxFiles >= 1 then |JsonKeys(pages)| >= maxFiles else HasContents(pages)
  }

  /**
   * The keys `/analyze` goes on to load. A positive cap keeps the first `maxFiles` JSON
   * keys of the whole listing. A cap of zero or less is met as soon as it is first
   * compared. That happens after the first JSON key is appended, or at the end of the first
   * page that has `Contents`, whichever comes first.
   */
  function CappedKeys(pages: seq<Page>, maxFiles: int): (r: seq<string>)
    ensures forall j | 0 <= j < |r| :: IsJsonKey(r[j])
    ensures maxFiles >= 1 ==> |r| <= maxFiles && r <= JsonKeys(pages)
    ensures maxFiles <= 0 ==> |r| <= 1 && r <= ListedPageKeys(pages)
  {
    if maxFiles >= 1 then Take(JsonKeys(pages), maxFiles) else Take(ListedPageKeys(pages), 1)
  }

  /**
   * What the paginator delivers to a scan: the pages it returned, and the error raised by
   * the request for the next page, if that request failed. Pages are requested one at a
   * time, so a scan that stops early never meets the failure.
   */
  datatype Paginated = Paginated(pages: seq<Page>, failure: Option<string>)

  /**
   * The outcome of the `/analyze` scan: the selected keys, or the paginator's error when the
   * scan went on to request the failing page.
   */
  function ScanOutcome(listed: Paginated, maxFiles: int): (r: Result<seq<string>, string>)
    ensures listed.failure.None? ==> r == Ok(CappedKeys(listed.pages, maxFiles))
    ensures ScanStops(listed.pages, maxFiles) ==> r == Ok(CappedKeys(listed.pages, maxFiles))
    ensures r.Err? ==> r.error == listed.failure.value && CappedKeys(listed.pages, maxFiles) == JsonKeys(listed.pages)
  {
    if !ScanStops(listed.pages, maxFiles) && listed.failure.Some? then
      UnstoppedScanTakesAll(listed.pages, maxFiles);
      Err(listed.failure.value)
    else
      Ok(CappedKeys(listed.pages, maxFiles))
  }

  lemma KeysAppend(a: seq<ObjectSummary>, b: seq<ObjectSummary>)
    ensures Keys(a + b) == Keys(a) + Keys(b)
  {
  }

  lemma {:induction false} JsonEntriesAppend(a: seq<ObjectSummary>, b: seq<ObjectSummary>)
    ensures JsonEntries(a + b) == JsonEntries(a) + JsonEntries(b)
    decreases |b|
  {
    if |b| == 0 {
      assert a + b == a;
    } else {
      assert (a + b)[..|a + b| - 1] == a + b[..|b| - 1];
      JsonEntriesAppend(a, b[..|b| - 1]);
    }
  }

  lemma {:induction false} AllObjectsAppend(ps: seq<Page>, qs: seq<Page>)
    ensures AllObjects(ps + qs) == AllObjects(ps) + AllObjects(qs)
    decreases |qs|
  {
    if |qs| == 0 {
      assert ps + qs == ps;
    } else {
      assert (ps + qs)[..|ps + qs| - 1] == ps + qs[..|qs| - 1];
      AllObjectsAppend(ps, qs[..|qs| - 1]);
    }
  }

  /** The JSON keys of a front part of a listing are a prefix of those of the whole listing. */
  lemma JsonKeysPrefix(a: seq<ObjectSummary>, b: seq<ObjectSummary>)
    ensures Keys(JsonEntries(a)) <= Keys(JsonEntries(a + b))
  {
    JsonEntriesAppend(a, b);
    KeysAppend(JsonEntries(a), JsonEntries(b));
  }

  /** The JSON keys of a front run of the pages are a prefix of the listing's JSON keys. */
  lemma PagesPrefix(pages: seq<Page>, n: nat)
    requires n <= |pages|
    ensures JsonKeys(pages[..n]) <= JsonKeys(pages)
  {
    assert pages == pages[..n] + pages[n..];
    AllObjectsAppend(pages[..n], pages[n..]);
    JsonKeysPrefix(AllObjects(pages[..n]), AllObjects(pages[n..]));
  }

  /** The JSON entries are an order-preserving subsequence of the objects. */
  lemma {:induction false} JsonEntriesSubsequence(objs: seq<ObjectSummary>)
    ensures IsSubsequence(Keys(JsonEntries(objs)), Keys(objs))
    decreases |objs|
  {
    if |objs| == 0 {
      SubsequenceEmpty(Keys(objs));
    } else {
      var init := objs[..|objs| - 1];
      var last := objs[|objs| - 1];
      JsonEntriesSubsequence(init);
      assert objs == init + [last];
      KeysAppend(init, [last]);
      SubsequenceSnoc(Keys(JsonEntries(init)), Keys(init), last.key, IsJsonKey(last.key));
      if IsJsonKey(last.key) {
        KeysAppend(JsonEntries(init), [last]);
      }
    }
  }

  /** Every object with a JSON key is among the JSON entries. */
  lemma {:induction false} JsonEntriesComplete(objs: seq<ObjectSummary>, j: nat)
    requires j < |objs| && IsJsonKey(objs[j].key)
    ensures objs[j] in JsonEntries(objs)
    decreases |objs|
  {
    if j < |objs| - 1 {
      JsonEntriesComplete(objs[..|objs| - 1], j);
    }
  }

  /** The first page with `Contents` that is preceded only by pages without one. */
  ghost predicate FirstListed(pages: seq<Page>, p: nat)
  {
    p < |pages| && pages[p].contents.Some? && forall i | 0 <= i < p :: pages[i].contents.None?
  }

  /** `ListedPageKeys` takes the keys of the first page that has `Contents`. */
  lemma {:induction false} ListedPageKeysAt(pages: seq<Page>, p: nat)
    requires FirstListed(pages, p)
    ensures ListedPageKeys(pages) == PageKeys(pages[p])
    decreases p
  {
    if p > 0 {
      assert pages[0].contents.None?;
      assert forall i | 0 <= i < p - 1 :: pages[1..][i] == pages[i + 1];
      ListedPageKeysAt(pages[1..], p - 1);
    }
  }

  /** Without any `Contents` the listing has no objects and no listed page. */
  lemma {:induction false} NoContentsNothingListed(pages: seq<Page>)
    requires !HasContents(pages)
    ensures AllObjects(pages) == [] && ListedPageKeys(pages) == []
    decreases |pages|
  {
    if |pages| > 0 {
      assert !HasContents(pages[..|pages| - 1]);
      assert !HasContents(pages[1..]);
      assert pages[|pages| - 1].contents.None? && pages[0].contents.None?;
      NoContentsNothingListed(pages[..|pages| - 1]);
      NoContentsNothingListed(pages[1..]);
    }
  }

  /** The listed page's JSON keys lead the listing's JSON keys: the pages before it contribute none. */
  lemma {:induction false} ListedPageKeysPrefix(pages: seq<Page>)
    ensures ListedPageKeys(pages) <= JsonKeys(pages)
    decreases |pages|
  {
    if |pages| > 0 {
      assert pages == [pages[0]] + pages[1..];
      AllObjectsAppend([pages[0]], pages[1..]);
      assert [pages[0]][..0] == [];
      assert AllObjects([pages[0]]) == PageObjects(pages[0]);
      if pages[0].contents.Some? {
        assert pages[..1] == [pages[0]];
        PagesPrefix(pages, 1);
      } else {
        assert AllObjects(pages) == AllObjects(pages[1..]);
        ListedPageKeysPrefix(pages[1..]);
      }
    }
  }

  /** Pages after a listed page do not change which page is listed first. */
  lemma {:induction false} ListedPageKeysAppend(pages: seq<Page>, more: seq<Page>)
    requires HasContents(pages)
    ensures ListedPageKeys(pages + more) == ListedPageKeys(pages)
    decreases |pages|
  {
    assert (pages + more)[0] == pages[0];
    if pages[0].contents.None? {
      var i :| 0 <= i < |pages| && pages[i].contents.Some?;
      assert pages[1..][i - 1].contents.Some?;
      assert (pages + more)[1..] == pages[1..] + more;
      ListedPageKeysAppend(pages[1..], more);
    }
  }

  /**
   * A scan that stops on the delivered pages selects the same keys whatever pages come
   * after them, so the pages it never requested cannot matter.
   */
  lemma StoppedScanIgnoresLaterPages(pages: seq<Page>, more: seq<Page>, maxFiles: int)
    requires ScanStops(pages, maxFiles)
    ensures ScanStops(pages + more, maxFiles)
    ensures CappedKeys(pages + more, maxFiles) == CappedKeys(pages, maxFiles)
  {
    if maxFiles >= 1 {
      AllObjectsAppend(pages, more);
      JsonKeysPrefix(AllObjects(pages), AllObjects(more));
    } else {
      var i :| 0 <= i < |pages| && pages[i].contents.Some?;
      assert (pages + more)[i].contents.Some?;
      ListedPageKeysAppend(pages, more);
    }
  }

  /** A scan that runs out of pages without stopping has selected every JSON key. */
  lemma UnstoppedScanTakesAll(pages: seq<Page>, maxFiles: int)
    requires !ScanStops(pages, maxFiles)
    ensures CappedKeys(pages, maxFiles) == JsonKeys(pages)
  {
    if maxFiles <= 0 {
      NoContentsNothingListed(pages);
    }
  }

  /**
   * The selected keys are an order-preserving subsequence of the listing's keys, and for a
   * cap of zero or less they are one of the keys of the first page that has `Contents`.
   */
  lemma CappedKeysSubsequence(pages: seq<Page>, maxFiles: int, p: nat)
    ensures CappedKeys(pages, maxFiles) <= JsonKeys(pages)
    ensures IsSubsequence(CappedKeys(pages, maxFiles), AllKeys(pages))
    ensures maxFiles <= 0 && FirstListed(pages, p) ==> IsSubsequence(CappedKeys(pages, maxFiles), Keys(PageObjects(pages[p])))
  {
    var r := CappedKeys(pages, maxFiles);
    ListedPageKeysPrefix(pages);
    JsonEntriesSubsequence(AllObjects(pages));
    SubsequencePrefix(JsonKeys(pages), AllKeys(pages), |r|);
    assert r == JsonKeys(pages)[..|r|];
    if maxFiles <= 0 && FirstListed(pages, p) {
      ListedPageKeysAt(pages, p);
      JsonEntriesSubsequence(PageObjects(pages[p]));
      SubsequencePrefix(PageKeys(pages[p]), Keys(PageObjects(pages[p])), |r|);
    }
  }

  /**
   * With a cap of zero or less, the scan selects nothing exactly when the first page that
   * has `Contents` has no JSON key, or when no page has `Contents`.
   */
  lemma NonPositiveCapFirstListedPage(pages: seq<Page>, maxFiles: int, p: nat)
    requires maxFiles <= 0
    ensures FirstListed(pages, p) ==>
      (CappedKeys(pages, maxFiles) == [] <==>
        forall j | 0 <= j < |PageObjects(pages[p])| :: !IsJsonKey(PageObjects(pages[p])[j].key))
    ensures !HasContents(pages) ==> CappedKeys(pages, maxFiles) == []
  {
    if FirstListed(pages, p) {
      ListedPageKeysAt(pages, p);
      var objs := PageObjects(pages[p]);
      if exists j | 0 <= j < |objs| :: IsJsonKey(objs[j].key) {
        var j :| 0 <= j < |objs| && IsJsonKey(objs[j].key);
        JsonEntriesComplete(objs, j);
      } else {
        NoJsonKeysNoEntries(objs);
      }
    }
    if !HasContents(pages) {
      NoContentsNothingListed(pages);
    }
  }

  lemma {:induction false} NoJsonKeysNoEntries(objs: seq<ObjectSummary>)
    requires forall j | 0 <= j < |objs| :: !IsJsonKey(objs[j].key)
    ensures JsonEntries(objs) == []
    decreases |objs|
  {
    if |objs| > 0 {
      NoJsonKeysNoEntries(objs[..|objs| - 1]);
    }
  }

  /**
   * How many JSON keys one page may still add to `found` keys under the cap: the cap is
   * compared only after an append, so at least one.
   */
  function PageBudget(found: nat, maxFiles: int): int
  {
    if maxFiles - found >= 1 then maxFiles - found else 1
  }

  /** The keys of the whole pages before page `p`, followed by page `p`'s, lead the listing's JSON keys. */
  lemma JsonKeysStep(pages: seq<Page>, p: nat)
    requires p < |pages|
    ensures JsonKeys(pages[..p + 1]) == JsonKeys(pages[..p]) + Keys(JsonEntries(PageObjects(pages[p])))
    ensures JsonKeys(pages[..p + 1]) <= JsonKeys(pages)
  {
    var objs := PageObjects(pages[p]);
    assert pages[..p + 1][..p] == pages[..p];
    JsonEntriesAppend(AllObjects(pages[..p]), objs);
    KeysAppend(JsonEntries(AllObjects(pages[..p])), JsonEntries(objs));
    PagesPrefix(pages, p + 1);
  }

  /**
   * The inner loop of the `/analyze` scan over one page's objects: append each JSON key
   * to `found`, and stop as soon as the count reaches `maxFiles`.
   */
  method ScanPage(objs: seq<ObjectSummary>, found: seq<string>, maxFiles: int) returns (keys: seq<string>)
    ensures keys == found + Take(Keys(JsonEntries(objs)), PageBudget(|found|, maxFiles))
  {
    ghost var budget := PageBudget(|found|, maxFiles);
    ghost var seen: seq<string> := [];
    keys := found;
    var o := 0;
    assert objs[..0] == [];
    while o < |objs|
      invariant 0 <= o <= |objs|
      invariant seen == Keys(JsonEntries(objs[..o]))
      invariant keys == found + seen
      invariant |seen| < budget
    {
      ScanStep(objs, o);
      if IsJsonKey(objs[o].key) {
        keys := keys + [objs[o].key];
        seen := seen + [objs[o].key];
        assert keys == found + seen;
        if |keys| >= maxFiles {
          ScanStop(objs, o + 1, budget);
          break;
        }
      }
      o := o + 1;
    }
    if o == |objs| {
      ScanStop(objs, o, budget);
    }
  }

  /** One more object extends the JSON keys seen so far by its key, when it is a JSON key. */
  lemma ScanStep(objs: seq<ObjectSummary>, o: nat)
    requires o < |objs|
    ensures Keys(JsonEntries(objs[..o + 1])) ==
      Keys(JsonEntries(objs[..o])) + if IsJsonKey(objs[o].key) then [objs[o].key] else []
  {
    assert objs[..o + 1][..o] == objs[..o];
    KeysAppend(JsonEntries(objs[..o]), [objs[o]]);
  }

  /** Where the page scan stops, it has taken as many JSON keys as the budget allows. */
  lemma ScanStop(objs: seq<ObjectSummary>, o: nat, budget: int)
    requires o <= |objs|
    requires |Keys(JsonEntries(objs[..o]))| <= budget
    requires o < |objs| ==> |Keys(JsonEntries(objs[..o]))| == budget
    ensures Keys(JsonEntries(objs[..o])) == Take(Keys(JsonEntries(objs)), budget)
  {
    if o == |objs| {
      assert objs[..o] == objs;
    } else {
      var seen, all := Keys(JsonEntries(objs[..o])), Keys(JsonEntries(objs));
      assert objs[..o] + objs[o..] == objs;
      JsonKeysPrefix(objs[..o], objs[o..]);
      assert seen <= all;
      assert all[..budget] == seen;
    }
  }

  /**
   * One round of the outer scan over a page with `Contents`: after it the keys are those of
   * the earlier pages followed by as many of page `p`'s as the cap admits. If the cap is
   * then reached the scan has its result; otherwise it has the keys of the first `p + 1` pages.
   */
  lemma SelectStep(pages: seq<Page>, p: nat, maxFiles: int)
    requires p < |pages|
    requires maxFiles >= 1 ==> |JsonKeys(pages[..p])| < maxFiles
    requires maxFiles <= 0 ==> FirstListed(pages, p) && JsonKeys(pages[..p]) == []
    ensures var before := JsonKeys(pages[..p]);
      var after := before + Take(PageKeys(pages[p]), PageBudget(|before|, maxFiles));
      && (|after| >= maxFiles ==> after == CappedKeys(pages, maxFiles))
      && (|after| < maxFiles ==> after == JsonKeys(pages[..p + 1]))
  {
    if maxFiles <= 0 {
      ListedPageKeysAt(pages, p);
    } else {
      JsonKeysStep(pages, p);
      TakeAfter(JsonKeys(pages[..p]), PageKeys(pages[p]), JsonKeys(pages), maxFiles);
    }
  }

  /** A page without `Contents` adds no key. */
  lemma SkipPage(pages: seq<Page>, p: nat)
    requires p < |pages| && pages[p].contents.None?
    ensures JsonKeys(pages[..p + 1]) == JsonKeys(pages[..p])
  {
    JsonKeysStep(pages, p);
    assert PageKeys(pages[p]) == [];
  }

  /** A scan that went through every page without reaching the cap has every JSON key. */
  lemma SelectDone(pages: seq<Page>, maxFiles: int)
    requires maxFiles >= 1 ==> |JsonKeys(pages)| < maxFiles
    requires maxFiles <= 0 ==> forall i | 0 <= i < |pages| :: pages[i].contents.None?
    ensures !ScanStops(pages, maxFiles)
    ensures JsonKeys(pages) == CappedKeys(pages, maxFiles)
  {
    if maxFiles <= 0 {
      NoContentsNothingListed(pages);
    }
  }

  /**
   * The key-collecting loops of `/analyze`. The cap is checked after every append, and
   * after every page that has `Contents`. `stopped` tells whether the scan left the page
   * loop by a `break`, so the paginator was not asked for another page.
   */
  method SelectKeys(pages: seq<Page>, maxFiles: int) returns (keys: seq<string>, stopped: bool)
    ensures keys == CappedKeys(pages, maxFiles)
    ensures stopped == ScanStops(pages, maxFiles)
  {
    keys := [];
    stopped := false;
    var p := 0;
    while p < |pages|
      invariant 0 <= p <= |pages|
      invariant keys == JsonKeys(pages[..p])
      invariant maxFiles >= 1 ==> |keys| < maxFiles
      invariant maxFiles <= 0 ==> keys == [] && forall i | 0 <= i < p :: pages[i].contents.None?
      invariant !stopped
    {
      if pages[p].contents.Some? {
        ghost var after := keys + Take(PageKeys(pages[p]), PageBudget(|keys|, maxFiles));
        SelectStep(pages, p, maxFiles);
        keys := ScanPage(pages[p].contents.value, keys, maxFiles);
        assert keys == after;
        if |keys| >= maxFiles {
          assert pages[p].contents.Some?;
          stopped := true;
          break;
        }
      } else {
        SkipPage(pages, p);
      }
      p := p + 1;
    }
    if !stopped {
      assert pages[..p] == pages;
      SelectDone(pages, maxFiles);
    }
  }

  /** One more object extends the JSON entries by itself when its key is a JSON key. */
  lemma EntriesStep(a: seq<ObjectSummary>, x: ObjectSummary)
    ensures JsonEntries(a + [x]) == JsonEntries(a) + if IsJsonKey(x.key) then [x] else []
  {
    assert (a + [x])[..|a|] == a;
  }

  /** The objects of the first `p + 1` pages are those of the first `p` followed by page `p`'s. */
  lemma AllObjectsStep(pages: seq<Page>, p: nat)
    requires p < |pages|
    ensures AllObjects(pages[..p + 1]) == AllObjects(pages[..p]) + PageObjects(pages[p])
  {
    assert pages[..p + 1][..p] == pages[..p];
  }

  /** The inner loop of `/list_files` over one page: it appends the page's JSON objects in order. */
  method PageJsonFiles(objs: seq<ObjectSummary>, files: seq<ObjectSummary>) returns (r: seq<ObjectSummary>)
    ensures r == files + JsonEntries(objs)
  {
    ghost var kept: seq<ObjectSummary> := [];
    r := files;
    var o := 0;
    assert objs[..0] == [];
    while o < |objs|
      invariant 0 <= o <= |objs|
      invariant kept == JsonEntries(objs[..o])
      invariant r == files + kept
    {
      assert objs[..o + 1] == objs[..o] + [objs[o]];
      EntriesStep(objs[..o], objs[o]);
      if IsJsonKey(objs[o].key) {
        r := r + [objs[o]];
        kept := kept + [objs[o]];
        assert r == files + kept;
      }
      o := o + 1;
    }
    assert objs[..o] == objs;
  }

  /** The listing loop of `/list_files`: every JSON object, uncapped. */
  method ListJsonFiles(pages: seq<Page>) returns (resp: ListFilesResponse)
    ensures resp.files == JsonEntries(AllObjects(pages))
    ensures Keys(resp.files) == JsonKeys(pages)
    ensures resp.count == |resp.files|
  {
    var files: seq<ObjectSummary> := [];
    var p := 0;
    while p < |pages|
      invariant 0 <= p <= |pages|
      invariant files == JsonEntries(AllObjects(pages[..p]))
    {
      AllObjectsStep(pages, p);
      JsonEntriesAppend(AllObjects(pages[..p]), PageObjects(pages[p]));
      if pages[p].contents.Some? {
        files := PageJsonFiles(pages[p].contents.value, files);
      }
      p := p + 1;
    }
    assert pages[..|pages|] == pages;
    resp := ListFilesResponse(files, |files|);
  }
}
