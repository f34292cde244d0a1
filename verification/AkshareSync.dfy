/** `sync_stock_basic_info`: fetch and upsert every stock, list the failures, and retry them once. */
module AkshareSync {
  import opened Wrappers

  /** A stored document; `info` stands for the fields that an upsert sets. */
  datatype Entry = Entry(code: Option<string>, info: int)

  /**
   What comes of fetching a stock and storing it: it is stored, nothing is fetched, or something
   raises, either before the update is carried out or with its reply.
   */
  datatype Fetch = Info(info: int) | Nothing | RaisedBefore | RaisedAfter(info: int)

  predicate HasCode(code: Option<string>) { code.Some? && code.value != "" }

  predicate Stores(f: Fetch) { f.Info? || f.RaisedAfter? }

  predicate Raising(f: Fetch) { f.RaisedBefore? || f.RaisedAfter? }

  // ---- the collection ----

  /** `update_one({"code": code}, {"$set": ...}, upsert=True)`: the first match is changed, or one is added. */
  function Upserted(docs: seq<Entry>, code: string, info: int): seq<Entry> {
    if docs == [] then [Entry(Some(code), info)]
    else if docs[0].code == Some(code) then [docs[0].(info := info)] + docs[1..]
    else [docs[0]] + Upserted(docs[1..], code, info)
  }

  predicate HasDoc(docs: seq<Entry>, code: string) { exists i | 0 <= i < |docs| :: docs[i].code == Some(code) }

  predicate OnePerCode(docs: seq<Entry>) {
    forall i, j | 0 <= i < j < |docs| && HasCode(docs[i].code) :: docs[i].code != docs[j].code
  }

  /** The place of the first document with a code. */
  function Find(docs: seq<Entry>, code: string): (k: nat)
    ensures k <= |docs| && (k < |docs| ==> docs[k].code == Some(code)) && forall i | 0 <= i < k :: docs[i].code != Some(code)
  {
    if docs == [] || docs[0].code == Some(code) then 0 else 1 + Find(docs[1..], code)
  }

  lemma {:induction false} UpsertedAt(docs: seq<Entry>, code: string, info: int)
    ensures
      var k := Find(docs, code);
      Upserted(docs, code, info) == if k < |docs| then docs[k := docs[k].(info := info)] else docs + [Entry(Some(code), info)]
  {
    if docs != [] && docs[0].code != Some(code) { UpsertedAt(docs[1..], code, info); }
  }

  /** An upsert stores the code, keeps every other document, and never makes a second document of a code. */
  lemma UpsertIsExact(docs: seq<Entry>, code: string, info: int)
    ensures
      var after := Upserted(docs, code, info);
      && |after| == |docs| + (if HasDoc(docs, code) then 0 else 1)
      && (forall i | 0 <= i < |docs| :: after[i].code == docs[i].code && (docs[i].code != Some(code) ==> after[i] == docs[i]))
      && (!HasDoc(docs, code) ==> after[|docs|] == Entry(Some(code), info))
      && (exists i | 0 <= i < |after| :: after[i] == Entry(Some(code), info))
  {
    hide Upserted;
    var k := Find(docs, code);
    UpsertedAt(docs, code, info);
    assert Upserted(docs, code, info)[k] == Entry(Some(code), info);
    assert HasDoc(docs, code) <==> k < |docs|;
  }

  /** What a query for a code finds: the fields of its first document. */
  function InfoOf(docs: seq<Entry>, code: string): Option<int> {
    if Find(docs, code) < |docs| then Some(docs[Find(docs, code)].info) else None
  }

  lemma FindIs(docs: seq<Entry>, code: string, k: nat)
    requires k <= |docs| && (k < |docs| ==> docs[k].code == Some(code)) && forall i | 0 <= i < k :: docs[i].code != Some(code)
    ensures Find(docs, code) == k
  {
  }

  lemma UpsertSetsInfo(docs: seq<Entry>, code: string, info: int, c: string)
    ensures InfoOf(Upserted(docs, code, info), c) == if c == code then Some(info) else InfoOf(docs, c)
  {
    hide Upserted;
    var k, after := Find(docs, code), Upserted(docs, code, info);
    UpsertedAt(docs, code, info);
    FindIs(after, c, if c == code then k else if Find(docs, c) < |docs| then Find(docs, c) else |after|);
  }

  lemma UpsertKeepsOnePerCode(docs: seq<Entry>, code: string, info: int)
    requires OnePerCode(docs)
    ensures OnePerCode(Upserted(docs, code, info))
  {
    hide Upserted;
    UpsertIsExact(docs, code, info);
  }

  lemma UpsertAddsOneCode(docs: seq<Entry>, code: string, info: int, c: string)
    ensures HasDoc(Upserted(docs, code, info), c) <==> HasDoc(docs, c) || c == code
  {
    hide Upserted;
    UpsertIsExact(docs, code, info);
    var after := Upserted(docs, code, info);
    if HasDoc(docs, c) {
      var i :| 0 <= i < |docs| && docs[i].code == Some(c);
      assert after[i].code == Some(c);
    }
    if HasDoc(after, c) && c != code {
      var i :| 0 <= i < |after| && after[i].code == Some(c);
      assert i < |docs| && docs[i].code == Some(c);
    }
  }

  // ---- a pass over a list of stocks ----

  /** The documents after the first `n` stocks. */
  function DocsAfter(docs: seq<Entry>, codes: seq<Option<string>>, fetch: nat -> Fetch, n: nat): seq<Entry>
    requires n <= |codes|
  {
    if n == 0 then docs
    else
      var before := DocsAfter(docs, codes, fetch, n - 1);
      if HasCode(codes[n - 1]) && Stores(fetch(n - 1)) then Upserted(before, codes[n - 1].value, fetch(n - 1).info) else before
  }

  predicate StoredBy(codes: seq<Option<string>>, fetch: nat -> Fetch, n: nat, c: string)
    requires n <= |codes|
  {
    exists i | 0 <= i < n :: codes[i] == Some(c) && c != "" && Stores(fetch(i))
  }

  /** A code has a document afterwards exactly when it had one or one of its fetches was stored. */
  lemma {:induction false} CodesAfter(docs: seq<Entry>, codes: seq<Option<string>>, fetch: nat -> Fetch, n: nat, c: string)
    requires n <= |codes|
    ensures HasDoc(DocsAfter(docs, codes, fetch, n), c) <==> HasDoc(docs, c) || StoredBy(codes, fetch, n, c)
  {
    hide HasDoc, Upserted;
    if n > 0 {
      CodesAfter(docs, codes, fetch, n - 1, c);
      if HasCode(codes[n - 1]) && Stores(fetch(n - 1)) {
        UpsertAddsOneCode(DocsAfter(docs, codes, fetch, n - 1), codes[n - 1].value, fetch(n - 1).info, c);
      }
    }
  }

  /** The fields of the last fetch of a code that was stored. */
  function LastStored(codes: seq<Option<string>>, fetch: nat -> Fetch, n: nat, c: string): Option<int>
    requires n <= |codes|
  {
    if n == 0 then None
    else if codes[n - 1] == Some(c) && c != "" && Stores(fetch(n - 1)) then Some(fetch(n - 1).info)
    else LastStored(codes, fetch, n - 1, c)
  }

  lemma {:induction false} LastStoredIff(codes: seq<Option<string>>, fetch: nat -> Fetch, n: nat, c: string)
    requires n <= |codes|
    ensures LastStored(codes, fetch, n, c).Some? <==> StoredBy(codes, fetch, n, c)
  {
    if n > 0 { LastStoredIff(codes, fetch, n - 1, c); }
  }

  /** The document of a code holds the fields of its last stored fetch, or what it held before if there was none. */
  lemma {:induction false} InfoAfter(docs: seq<Entry>, codes: seq<Option<string>>, fetch: nat -> Fetch, n: nat, c: string)
    requires n <= |codes|
    ensures InfoOf(DocsAfter(docs, codes, fetch, n), c) ==
      if LastStored(codes, fetch, n, c).Some? then LastStored(codes, fetch, n, c) else InfoOf(docs, c)
  {
    hide InfoOf, Upserted;
    if n > 0 {
      InfoAfter(docs, codes, fetch, n - 1, c);
      if HasCode(codes[n - 1]) && Stores(fetch(n - 1)) {
        UpsertSetsInfo(DocsAfter(docs, codes, fetch, n - 1), codes[n - 1].value, fetch(n - 1).info, c);
      }
    }
  }

  lemma {:induction false} PassKeepsOnePerCode(docs: seq<Entry>, codes: seq<Option<string>>, fetch: nat -> Fetch, n: nat)
    requires n <= |codes| && OnePerCode(docs)
    ensures OnePerCode(DocsAfter(docs, codes, fetch, n))
  {
    hide OnePerCode, Upserted;
    if n > 0 {
      PassKeepsOnePerCode(docs, codes, fetch, n - 1);
      if HasCode(codes[n - 1]) && Stores(fetch(n - 1)) {
        UpsertKeepsOnePerCode(DocsAfter(docs, codes, fetch, n - 1), codes[n - 1].value, fetch(n - 1).info);
      }
    }
  }

  // ---- the counters of the main loop ----

  function Successes(codes: seq<Option<string>>, fetch: nat -> Fetch, n: nat): nat
    requires n <= |codes|
  {
    if n == 0 then 0 else Successes(codes, fetch, n - 1) + if HasCode(codes[n - 1]) && fetch(n - 1).Info? then 1 else 0
  }

  function Codeless(codes: seq<Option<string>>, n: nat): nat
    requires n <= |codes|
  {
    if n == 0 then 0 else Codeless(codes, n - 1) + if HasCode(codes[n - 1]) then 0 else 1
  }

  /** The stocks that get to the statistics at the end of the loop body, where a batch size of zero raises. */
  function Finished(codes: seq<Option<string>>, fetch: nat -> Fetch, n: nat): nat
    requires n <= |codes|
  {
    if n == 0 then 0 else Finished(codes, fetch, n - 1) + if HasCode(codes[n - 1]) && !Raising(fetch(n - 1)) then 1 else 0
  }

  lemma {:induction false} FinishedNoneIff(codes: seq<Option<string>>, fetch: nat -> Fetch, n: nat)
    requires n <= |codes|
    ensures Finished(codes, fetch, n) == 0 <==> forall i | 0 <= i < n :: HasCode(codes[i]) ==> Raising(fetch(i))
  {
    hide HasCode, Raising;
    if n > 0 { FinishedNoneIff(codes, fetch, n - 1); }
  }

  /** How often stock `i` is put on the failed list. */
  function Times(codes: seq<Option<string>>, fetch: nat -> Fetch, batchSize: int, i: nat): nat
    requires i < |codes|
  {
    if !HasCode(codes[i]) then 0
    else (if fetch(i).Info? then 0 else 1) + if batchSize == 0 && !Raising(fetch(i)) then 1 else 0
  }

  function FailedList(codes: seq<Option<string>>, fetch: nat -> Fetch, batchSize: int, n: nat): seq<string>
    requires n <= |codes|
  {
    if n == 0 then []
    else
      var k := Times(codes, fetch, batchSize, n - 1);
      FailedList(codes, fetch, batchSize, n - 1)
      + if k == 0 then [] else if k == 1 then [codes[n - 1].value] else [codes[n - 1].value, codes[n - 1].value]
  }

  /** A code is on the failed list exactly when one of its stocks was not reported as stored, or the batch size is zero. */
  lemma {:induction false} OnFailedListIff(codes: seq<Option<string>>, fetch: nat -> Fetch, batchSize: int, n: nat, c: string)
    requires n <= |codes|
    ensures c in FailedList(codes, fetch, batchSize, n) <==>
      exists i | 0 <= i < n :: codes[i] == Some(c) && c != "" && (batchSize == 0 || !fetch(i).Info?)
  {
    if n > 0 { OnFailedListIff(codes, fetch, batchSize, n - 1, c); }
  }

  /** No coded stock is forgotten: it was stored in this pass or it is on the failed list. */
  lemma EveryStockAccounted(codes: seq<Option<string>>, fetch: nat -> Fetch, batchSize: int, i: nat)
    requires i < |codes| && HasCode(codes[i])
    ensures StoredBy(codes, fetch, |codes|, codes[i].value) || codes[i].value in FailedList(codes, fetch, batchSize, |codes|)
  {
    hide FailedList;
    OnFailedListIff(codes, fetch, batchSize, |codes|, codes[i].value);
    assert codes[i] == Some(codes[i].value);
  }

  class StockCollection {
    var docs: seq<Entry>

    method Upsert(code: string, info: int)
      modifies this
      ensures docs == Upserted(old(docs), code, info)
    {
      hide Upserted;
      ghost var before := docs;
      UpsertedAt(before, code, info);
      for i := 0 to |docs|
        invariant docs == before && forall j | 0 <= j < i :: docs[j].code != Some(code)
      {
        if docs[i].code == Some(code) {
          FindIs(before, code, i);
          docs := docs[i := docs[i].(info := info)];
          return;
        }
      }
      FindIs(before, code, |docs|);
      docs := docs + [Entry(Some(code), info)];
    }
  }

  datatype Counts = Counts(success: nat, failed: nat, failedStocks: seq<string>)

  /** The main loop; a zero batch size raises after the stock has been counted, and it is counted again. */
  method MainLoop(collection: StockCollection, codes: seq<Option<string>>, fetch: nat -> Fetch, batchSize: int) returns (r: Counts)
    modifies collection
    ensures collection.docs == DocsAfter(old(collection.docs), codes, fetch, |codes|)
    ensures r.success == Successes(codes, fetch, |codes|)
    ensures r.failedStocks == FailedList(codes, fetch, batchSize, |codes|)
    ensures r.success + r.failed == |codes| + if batchSize == 0 then Finished(codes, fetch, |codes|) else 0
    ensures |r.failedStocks| + Codeless(codes, |codes|) == r.failed
  {
    hide Upserted;
    var success, failed, failedStocks := 0, 0, [];
    for i := 0 to |codes|
      invariant collection.docs == DocsAfter(old(collection.docs), codes, fetch, i)
      invariant success == Successes(codes, fetch, i)
      invariant failedStocks == FailedList(codes, fetch, batchSize, i)
      invariant success + failed == i + if batchSize == 0 then Finished(codes, fetch, i) else 0
      invariant |failedStocks| + Codeless(codes, i) == failed
    {
      var code := codes[i];
      if !HasCode(code) {
        failed := failed + 1;
        continue;
      }
      var f := fetch(i);
      var raised := Raising(f);
      if Stores(f) { collection.Upsert(code.value, f.info); }
      if f.Info? {
        success := success + 1;
      } else if f.Nothing? {
        failed := failed + 1;
        failedStocks := failedStocks + [code.value];
      }
      if !raised && batchSize == 0 { raised := true; }
      if raised {
        failed := failed + 1;
        failedStocks := failedStocks + [code.value];
      }
    }
    r := Counts(success, failed, failedStocks);
  }

  function Coded(codes: seq<string>): seq<Option<string>> { seq(|codes|, i requires 0 <= i < |codes| => Some(codes[i])) }

  /** The retry of the failed stocks; the list itself is left as it is. */
  method RetryLoop(collection: StockCollection, failedStocks: seq<string>, fetch: nat -> Fetch) returns (recovered: nat)
    requires forall c | c in failedStocks :: c != ""
    modifies collection
    ensures collection.docs == DocsAfter(old(collection.docs), Coded(failedStocks), fetch, |failedStocks|)
    ensures recovered == Successes(Coded(failedStocks), fetch, |failedStocks|) <= |failedStocks|
  {
    hide Upserted;
    recovered := 0;
    for i := 0 to |failedStocks|
      invariant collection.docs == DocsAfter(old(collection.docs), Coded(failedStocks), fetch, i)
      invariant recovered == Successes(Coded(failedStocks), fetch, i) <= i
    {
      assert failedStocks[i] in failedStocks;
      assert Coded(failedStocks)[i] == Some(failedStocks[i]);
      var f := fetch(i);
      if Stores(f) { collection.Upsert(failedStocks[i], f.info); }
      if f.Info? { recovered := recovered + 1; }
    }
  }

  function Latest(stored: Option<int>, before: Option<int>): Option<int> { if stored.Some? then stored else before }

  /** What the document of a code holds in the end: its last retry, else its last fetch, else what was there before. */
  function FinalInfo(docs: seq<Entry>, codes: seq<Option<string>>, first: nat -> Fetch, saved: seq<string>, retried: bool,
      second: nat -> Fetch, c: string): Option<int>
  {
    var middle := Latest(LastStored(codes, first, |codes|, c), InfoOf(docs, c));
    if retried then Latest(LastStored(Coded(saved), second, |saved|, c), middle) else middle
  }

  lemma EmptyPass(docs: seq<Entry>, fetch: nat -> Fetch, batchSize: int)
    ensures DocsAfter(docs, [], fetch, 0) == docs && FailedList([], fetch, batchSize, 0) == []
  {
  }

  /** The whole synchronisation; `saved` is the list written to the file at the end. */
  method SyncStockBasicInfo(collection: StockCollection, codes: seq<Option<string>>, batchSize: int, retryFailed: bool,
      first: nat -> Fetch, second: nat -> Fetch)
      returns (r: Counts, recovered: nat, saved: seq<string>)
    modifies collection
    ensures codes == [] ==> collection.docs == old(collection.docs)
    ensures OnePerCode(old(collection.docs)) ==> OnePerCode(collection.docs)
    ensures r.success + r.failed == |codes| <==>
      batchSize != 0 || forall i | 0 <= i < |codes| :: HasCode(codes[i]) ==> Raising(first(i))
    ensures saved == FailedList(codes, first, batchSize, |codes|) && recovered <= |saved| == r.failed - Codeless(codes, |codes|)
    ensures forall i | 0 <= i < |codes| && HasCode(codes[i]) ::
      StoredBy(codes, first, |codes|, codes[i].value) || codes[i].value in saved
    ensures forall c :: InfoOf(collection.docs, c) == FinalInfo(old(collection.docs), codes, first, saved, retryFailed, second, c)
    ensures forall c :: HasDoc(collection.docs, c) <==>
      (HasDoc(old(collection.docs), c) || StoredBy(codes, first, |codes|, c)
       || (retryFailed && StoredBy(Coded(saved), second, |saved|, c)))
  {
    hide DocsAfter, HasDoc, OnePerCode, Successes, FailedList, InfoOf;
    EmptyPass(collection.docs, first, batchSize);
    if codes == [] { return Counts(0, 0, []), 0, []; }
    r := MainLoop(collection, codes, first, batchSize);
    FinishedNoneIff(codes, first, |codes|);
    saved, recovered := r.failedStocks, 0;
    ghost var middle := collection.docs;
    if OnePerCode(old(collection.docs)) { PassKeepsOnePerCode(old(collection.docs), codes, first, |codes|); }
    forall c ensures HasDoc(middle, c) <==> HasDoc(old(collection.docs), c) || StoredBy(codes, first, |codes|, c) {
      CodesAfter(old(collection.docs), codes, first, |codes|, c);
    }
    forall c ensures InfoOf(middle, c) == Latest(LastStored(codes, first, |codes|, c), InfoOf(old(collection.docs), c)) {
      InfoAfter(old(collection.docs), codes, first, |codes|, c);
    }
    forall i | 0 <= i < |codes| && HasCode(codes[i])
      ensures StoredBy(codes, first, |codes|, codes[i].value) || codes[i].value in saved
    {
      EveryStockAccounted(codes, first, batchSize, i);
    }
    if retryFailed {
      forall c | c in saved ensures c != "" { OnFailedListIff(codes, first, batchSize, |codes|, c); }
      recovered := RetryLoop(collection, saved, second);
      if OnePerCode(middle) { PassKeepsOnePerCode(middle, Coded(saved), second, |saved|); }
      forall c ensures HasDoc(collection.docs, c) <==> HasDoc(middle, c) || StoredBy(Coded(saved), second, |saved|, c) {
        CodesAfter(middle, Coded(saved), second, |saved|, c);
      }
      forall c ensures InfoOf(collection.docs, c) == Latest(LastStored(Coded(saved), second, |saved|, c), InfoOf(middle, c)) {
        InfoAfter(middle, Coded(saved), second, |saved|, c);
      }
    }
  }

  /** One stock that is stored, with a batch size of zero: counted as a success and as a failure, and listed for a retry. */
  lemma ZeroBatchCountsTwice(code: string, info: int)
    requires code != ""
    ensures
      var codes, fetch := [Some(code)], (i: nat) => Info(info);
      && Successes(codes, fetch, 1) == 1 && Finished(codes, fetch, 1) == 1
      && FailedList(codes, fetch, 0, 1) == [code]
  {
    var codes, fetch := [Some(code)], (i: nat) => Info(info);
    assert Successes(codes, fetch, 0) == 0 && Finished(codes, fetch, 0) == 0;
    assert FailedList(codes, fetch, 0, 0) == [];
    assert Times(codes, fetch, 0, 0) == 1;
  }

  /** One stock whose update is carried out but answered by an exception: stored, and listed for a retry. */
  lemma LostReplyStoresAndFails(code: string, info: int, batchSize: int)
    requires code != ""
    ensures
      var codes, fetch := [Some(code)], (i: nat) => RaisedAfter(info);
      && DocsAfter([], codes, fetch, 1) == [Entry(Some(code), info)]
      && Successes(codes, fetch, 1) == 0 && FailedList(codes, fetch, batchSize, 1) == [code]
  {
    var codes, fetch := [Some(code)], (i: nat) => RaisedAfter(info);
    assert DocsAfter([], codes, fetch, 0) == [] && Successes(codes, fetch, 0) == 0;
    assert FailedList(codes, fetch, batchSize, 0) == [];
    assert Times(codes, fetch, batchSize, 0) == 1;
  }
}
