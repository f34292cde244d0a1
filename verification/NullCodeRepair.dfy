/** `fix_null_code_records`: quotes stored without a code get their symbol as code, or are deleted. */
module NullCodeRepair {
  import opened Snapshot
  import opened Wrappers

  /** A quote; a missing field and null are both `None`. */
  datatype Quote = Quote(code: Option<string>, symbol: Option<string>)

  type Quotes = map<int, Quote>

  predicate HasSymbol(q: Quote) { q.symbol.Some? && q.symbol.value != "" }

  function Codes(quotes: Quotes): set<string> { set id | id in quotes && quotes[id].code.Some? :: quotes[id].code.value }

  /** No two quotes have the same code. */
  predicate UniqueCodes(quotes: Quotes) {
    forall a, b | a in quotes && b in quotes && quotes[a].code.Some? && quotes[a].code == quotes[b].code :: a == b
  }

  predicate NoNullCode(quotes: Quotes) { forall id | id in quotes :: quotes[id].code.Some? }

  /** The quotes without a code, each listed once, in whatever order the database returns them. */
  ghost predicate Listing(quotes: Quotes, listed: seq<int>) {
    && Distinct(listed)
    && (forall i | 0 <= i < |listed| :: listed[i] in quotes && quotes[listed[i]].code == None)
    && (forall id | id in quotes && quotes[id].code == None :: id in listed)
  }

  predicate Stored(quotes: Quotes, listed: seq<int>) { forall i | 0 <= i < |listed| :: listed[i] in quotes }

  // ---- the result as a function of what was there before ----

  /** The listed quote whose symbol is not yet a code and that comes first among those with its symbol. */
  predicate Wins(quotes: Quotes, listed: seq<int>, i: nat)
    requires i < |listed| && Stored(quotes, listed)
  {
    var q := quotes[listed[i]];
    && HasSymbol(q)
    && q.symbol.value !in Codes(quotes)
    && forall j | 0 <= j < i :: quotes[listed[j]].symbol != q.symbol
  }

  predicate Handled(listed: seq<int>, n: nat, id: int)
    requires n <= |listed|
  {
    id in listed[..n]
  }

  predicate Survives(quotes: Quotes, listed: seq<int>, n: nat, id: int)
    requires n <= |listed| && Stored(quotes, listed)
  {
    exists i | 0 <= i < n :: listed[i] == id && Wins(quotes, listed, i)
  }

  /** The collection after the first `n` listed quotes: winners have their symbol as code, losers are gone. */
  function After(quotes: Quotes, listed: seq<int>, n: nat): Quotes
    requires n <= |listed| && Stored(quotes, listed)
  {
    map id | id in quotes && (Handled(listed, n, id) ==> Survives(quotes, listed, n, id)) ::
      if Handled(listed, n, id) then quotes[id].(code := quotes[id].symbol) else quotes[id]
  }

  /** The codes after the first `n`: the old ones and the symbols seen. */
  lemma {:induction false} CodesAfter(quotes: Quotes, listed: seq<int>, n: nat, c: string)
    requires n <= |listed| && Listing(quotes, listed)
    ensures c in Codes(After(quotes, listed, n)) <==>
      c in Codes(quotes) || exists i | 0 <= i < n :: HasSymbol(quotes[listed[i]]) && quotes[listed[i]].symbol == Some(c)
  {
    var after := After(quotes, listed, n);
    if c in Codes(after) {
      var id :| id in after && after[id].code == Some(c);
      if Handled(listed, n, id) {
        var i :| 0 <= i < n && listed[i] == id && Wins(quotes, listed, i);
      } else {
        assert quotes[id].code == Some(c);
      }
    }
    if c in Codes(quotes) {
      var id :| id in quotes && quotes[id].code == Some(c);
      assert id !in listed;
      assert id in after && after[id].code == Some(c);
    } else if i :| 0 <= i < n && HasSymbol(quotes[listed[i]]) && quotes[listed[i]].symbol == Some(c) {
      var k := FirstWithSymbol(quotes, listed, i);
      assert Wins(quotes, listed, k);
      assert listed[..n][k] == listed[k];
      assert Survives(quotes, listed, n, listed[k]) && listed[k] in after;
      assert after[listed[k]].code == Some(c);
    }
  }

  lemma {:induction false} FirstWithSymbol(quotes: Quotes, listed: seq<int>, i: nat) returns (k: nat)
    requires i < |listed| && Stored(quotes, listed)
    ensures k <= i && quotes[listed[k]].symbol == quotes[listed[i]].symbol
    ensures forall j | 0 <= j < k :: quotes[listed[j]].symbol != quotes[listed[i]].symbol
  {
    if j :| 0 <= j < i && quotes[listed[j]].symbol == quotes[listed[i]].symbol {
      k := FirstWithSymbol(quotes, listed, j);
    } else {
      k := i;
    }
  }

  // ---- the collection and the repair ----

  class QuoteCollection {
    var quotes: Quotes

    method FindNullCodes() returns (listed: seq<int>)
      ensures Listing(quotes, listed)
    {
      var ids := set id | id in quotes && quotes[id].code == None;
      listed := ListAll(ids);
      assert forall i | 0 <= i < |listed| :: listed[i] in Elements(listed);
      forall id | id in quotes && quotes[id].code == None ensures id in listed {
        assert id in ids && id in Elements(listed);
      }
    }

    /** `find_one` for a code in another document. */
    method CodeTaken(code: string, id: int) returns (taken: bool)
      requires id in quotes && quotes[id].code == None
      ensures taken <==> code in Codes(quotes)
    {
      taken := exists other | other in quotes :: other != id && quotes[other].code == Some(code);
    }

    method DeleteOne(id: int) returns (deleted: nat)
      modifies this
      ensures quotes == old(quotes) - {id} && deleted == if id in old(quotes) then 1 else 0
    {
      deleted := if id in quotes then 1 else 0;
      quotes := quotes - {id};
    }

    /** `$set` of the code; a document counts as modified if it is there and had another code. */
    method SetCode(id: int, code: string) returns (modified: nat)
      modifies this
      ensures quotes == if id in old(quotes) then old(quotes)[id := old(quotes)[id].(code := Some(code))] else old(quotes)
      ensures modified == if id in old(quotes) && old(quotes)[id].code != Some(code) then 1 else 0
    {
      modified := 0;
      if id in quotes {
        if quotes[id].code != Some(code) { modified := 1; }
        quotes := quotes[id := quotes[id].(code := Some(code))];
      }
    }

    method FixNullCodeRecords() returns (ghost listed: seq<int>, total: nat, fixed: nat, deleted: nat)
      modifies this
      ensures Listing(old(quotes), listed) && total == |listed| && fixed + deleted == total
      ensures quotes == After(old(quotes), listed, |listed|)
      ensures |quotes| + deleted == |old(quotes)|
    {
      hide Codes, Wins, After;
      ghost var before := quotes;
      var records := FindNullCodes();
      NothingHandled(before, records);
      total, fixed, deleted, listed := |records|, 0, 0, records;
      for n := 0 to |records|
        invariant quotes == After(before, records, n)
        invariant fixed + deleted == n && |quotes| + deleted == |before|
      {
        var id := records[n];
        UntilItsTurn(before, records, n);
        AfterStep(before, records, n);
        var record := quotes[id];
        if HasSymbol(record) {
          var taken := CodeTaken(record.symbol.value, id);
          if taken {
            var count := DeleteOne(id);
            deleted := deleted + count;
          } else {
            var count := SetCode(id, record.symbol.value);
            fixed := fixed + count;
          }
        } else {
          var count := DeleteOne(id);
          deleted := deleted + count;
        }
      }
    }
  }

  lemma NothingHandled(quotes: Quotes, listed: seq<int>)
    requires Stored(quotes, listed)
    ensures After(quotes, listed, 0) == quotes
  {
  }

  /** A listed quote is unchanged until its turn. */
  lemma UntilItsTurn(quotes: Quotes, listed: seq<int>, n: nat)
    requires n < |listed| && Listing(quotes, listed)
    ensures var after := After(quotes, listed, n); listed[n] in after && after[listed[n]] == quotes[listed[n]]
  {
    assert !Handled(listed, n, listed[n]);
  }

  /** A quote wins exactly when no code stored at its turn is its symbol, and then it gets it; otherwise it goes. */
  lemma AfterStep(quotes: Quotes, listed: seq<int>, n: nat)
    requires n < |listed| && Listing(quotes, listed)
    ensures
      var q, now, next := quotes[listed[n]], After(quotes, listed, n), After(quotes, listed, n + 1);
      next == if HasSymbol(q) && q.symbol.value !in Codes(now) then now[listed[n] := q.(code := q.symbol)] else now - {listed[n]}
  {
    hide Codes;
    var id := listed[n];
    UntilItsTurn(quotes, listed, n);
    WinsIff(quotes, listed, n);
    assert listed[..n + 1] == listed[..n] + [id];
    forall other | other != id ensures
      (Handled(listed, n + 1, other) <==> Handled(listed, n, other))
      && (Survives(quotes, listed, n + 1, other) <==> Survives(quotes, listed, n, other)) {
    }
    assert Handled(listed, n + 1, id);
    assert Survives(quotes, listed, n + 1, id) <==> Wins(quotes, listed, n);
  }

  lemma WinsIff(quotes: Quotes, listed: seq<int>, n: nat)
    requires n < |listed| && Listing(quotes, listed)
    ensures Wins(quotes, listed, n) <==>
      HasSymbol(quotes[listed[n]]) && quotes[listed[n]].symbol.value !in Codes(After(quotes, listed, n))
  {
    hide After, Codes;
    var q := quotes[listed[n]];
    if HasSymbol(q) {
      CodesAfter(quotes, listed, n, q.symbol.value);
    }
  }

  // ---- what the repair achieves ----

  /** No quote is left without a code, and the others are untouched. */
  lemma NoNullCodeLeft(quotes: Quotes, listed: seq<int>)
    requires Listing(quotes, listed)
    ensures NoNullCode(After(quotes, listed, |listed|))
    ensures forall id | id in quotes && quotes[id].code.Some? ::
      id in After(quotes, listed, |listed|) && After(quotes, listed, |listed|)[id] == quotes[id]
    ensures forall id | id in After(quotes, listed, |listed|) && quotes[id].code == None ::
      After(quotes, listed, |listed|)[id] == quotes[id].(code := quotes[id].symbol)
  {
    hide Codes;
    assert listed[..|listed|] == listed;
    forall id | id in quotes ensures Handled(listed, |listed|, id) <==> quotes[id].code == None {
    }
  }

  /**
   A listed quote is kept exactly when it has a symbol that no stored code is and that no quote
   listed before it has; then the symbol is its code.
   */
  lemma KeptIff(quotes: Quotes, listed: seq<int>, i: nat)
    requires i < |listed| && Listing(quotes, listed)
    ensures
      var symbol, after := quotes[listed[i]].symbol, After(quotes, listed, |listed|);
      && (listed[i] in after <==>
           && symbol != None && symbol != Some("")
           && (forall id | id in quotes :: quotes[id].code != symbol)
           && forall j | 0 <= j < i :: quotes[listed[j]].symbol != symbol)
      && (listed[i] in after ==> after[listed[i]] == Quote(symbol, symbol))
  {
    assert listed[..|listed|] == listed && Handled(listed, |listed|, listed[i]);
    var symbol := quotes[listed[i]].symbol;
    if symbol.Some? {
      assert symbol.value in Codes(quotes) <==> exists id | id in quotes :: quotes[id].code == symbol;
    }
    assert Survives(quotes, listed, |listed|, listed[i]) <==> Wins(quotes, listed, i);
  }

  /** The codes at the end do not depend on the order of the listing: the old codes and every symbol listed. */
  lemma EverySymbolIsACode(quotes: Quotes, listed: seq<int>)
    requires Listing(quotes, listed)
    ensures Codes(After(quotes, listed, |listed|)) ==
      Codes(quotes) + set id | id in quotes && quotes[id].code == None && HasSymbol(quotes[id]) :: quotes[id].symbol.value
  {
    hide After, Codes;
    var symbols := set id | id in quotes && quotes[id].code == None && HasSymbol(quotes[id]) :: quotes[id].symbol.value;
    forall c ensures c in Codes(After(quotes, listed, |listed|)) <==> c in Codes(quotes) || c in symbols {
      CodesAfter(quotes, listed, |listed|, c);
      ListedSymbol(quotes, listed, c);
    }
  }

  lemma ListedSymbol(quotes: Quotes, listed: seq<int>, c: string)
    requires Listing(quotes, listed)
    ensures (exists i | 0 <= i < |listed| :: HasSymbol(quotes[listed[i]]) && quotes[listed[i]].symbol == Some(c)) <==>
      c in set id | id in quotes && quotes[id].code == None && HasSymbol(quotes[id]) :: quotes[id].symbol.value
  {
    if id :| id in quotes && quotes[id].code == None && HasSymbol(quotes[id]) && quotes[id].symbol.value == c {
      assert id in listed;
      var i :| 0 <= i < |listed| && listed[i] == id;
      assert quotes[listed[i]].symbol == Some(c);
    }
    if i :| 0 <= i < |listed| && HasSymbol(quotes[listed[i]]) && quotes[listed[i]].symbol == Some(c) {
      assert listed[i] in quotes && quotes[listed[i]].code == None && quotes[listed[i]].symbol.value == c;
    }
  }

  /** The codes are unique afterwards exactly when those stored before were. */
  lemma UniqueAfterIff(quotes: Quotes, listed: seq<int>)
    requires Listing(quotes, listed)
    ensures UniqueCodes(After(quotes, listed, |listed|)) <==> UniqueCodes(quotes)
  {
    hide After;
    var after := After(quotes, listed, |listed|);
    NoNullCodeLeft(quotes, listed);
    if UniqueCodes(quotes) {
      forall a, b | a in after && b in after && after[a].code == after[b].code ensures a == b {
        SameCodeSameQuote(quotes, listed, a, b);
      }
    }
  }

  lemma SameCodeSameQuote(quotes: Quotes, listed: seq<int>, a: int, b: int)
    requires Listing(quotes, listed) && UniqueCodes(quotes)
    requires a in After(quotes, listed, |listed|) && b in After(quotes, listed, |listed|)
    requires After(quotes, listed, |listed|)[a].code == After(quotes, listed, |listed|)[b].code
    ensures a == b
  {
    NoNullCodeLeft(quotes, listed);
    WinnerOf(quotes, listed, a);
    WinnerOf(quotes, listed, b);
    if quotes[a].code == None && quotes[b].code == None {
      var i :| 0 <= i < |listed| && listed[i] == a && Wins(quotes, listed, i);
      var j :| 0 <= j < |listed| && listed[j] == b && Wins(quotes, listed, j);
      assert i == j;
    }
  }

  lemma WinnerOf(quotes: Quotes, listed: seq<int>, id: int)
    requires Listing(quotes, listed) && id in After(quotes, listed, |listed|)
    ensures id in quotes && (quotes[id].code == None ==> exists i | 0 <= i < |listed| :: listed[i] == id && Wins(quotes, listed, i))
    ensures quotes[id].code == None ==> quotes[id].symbol.Some? && quotes[id].symbol.value !in Codes(quotes)
  {
    assert listed[..|listed|] == listed;
    if quotes[id].code == None {
      assert Handled(listed, |listed|, id);
      assert Survives(quotes, listed, |listed|, id);
    }
  }
}
